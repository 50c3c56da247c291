/**
 * The segmented progress bar: `numberOfSegments` grey segments laid out
 * across the screen, each holding a fill whose width shows progress. Widths
 * are exact reals; a segment's laid-out frame width is taken to be the width
 * its constraint gives it.
 */
module SegmentedProgressBar {

  /** Horizontal inset on each side of the bar, in points. */
  const Margin: real := 16.0
  /** Gap between neighbouring segments, in points. */
  const Spacing: real := 10.0

  /** Segment frame widths and fill widths, index by index. */
  datatype Bar = Bar(segments: seq<real>, fills: seq<real>)

  predicate WellFormed(b: Bar) {
    |b.segments| == |b.fills|
  }

  /** `calculateSegmentWidth`: the room left after margins and gaps, shared evenly. */
  function SegmentWidth(screenWidth: real, n: int): (w: real)
    requires n >= 1
    ensures n as real * w + Spacing * (n - 1) as real == screenWidth - 2.0 * Margin
  {
    (screenWidth - 2.0 * Margin - Spacing * (n - 1) as real) / n as real
  }

  /** Left offset of segment `index`. */
  function SegmentOffset(width: real, index: nat): real {
    index as real * (width + Spacing)
  }

  /** The segments and gaps exactly fill the screen between the margins. */
  lemma SegmentsSpanScreen(screenWidth: real, n: int)
    requires n >= 1
    ensures n as real * SegmentWidth(screenWidth, n) + Spacing * (n - 1) as real == screenWidth - 32.0
    ensures SegmentOffset(SegmentWidth(screenWidth, n), n - 1) + SegmentWidth(screenWidth, n) == screenWidth - 32.0
  {
    var w := SegmentWidth(screenWidth, n);
    assert n as real * w == screenWidth - 2.0 * Margin - Spacing * (n - 1) as real;
  }

  /**
   * `init(numberOfSegments:)`: one segment and one empty fill per index. A
   * negative count traps in `0..<numberOfSegments`, hence the precondition.
   */
  function Init(n: int, screenWidth: real): (b: Bar)
    requires n >= 0
    ensures WellFormed(b) && |b.segments| == n
    ensures forall i :: 0 <= i < n ==> b.segments[i] == SegmentWidth(screenWidth, n)
    ensures forall i :: 0 <= i < n ==> b.fills[i] == 0.0
  {
    if n == 0 then Bar([], [])
    else Bar(seq(n, _ => SegmentWidth(screenWidth, n)), seq(n, _ => 0.0))
  }

  /** The width `updateFillWidths` gives fill `i`. */
  function FillWidth(segments: seq<real>, segmentIndex: int, progress: real, i: nat): real
    requires i < |segments|
  {
    if i < segmentIndex then segments[i]
    else if i == segmentIndex then segments[i] * progress
    else 0.0
  }

  /** Every fill width `updateFillWidths` produces, as one sequence. */
  function FilledWidths(b: Bar, segmentIndex: int, progress: real): (w: seq<real>)
    requires WellFormed(b)
    ensures |w| == |b.fills|
  {
    seq(|b.fills|, i requires 0 <= i < |b.fills| => FillWidth(b.segments, segmentIndex, progress, i))
  }

  /**
   * `updateFillWidths`: fills before `segmentIndex` are full, the fill at it is
   * `progress` of its segment, those after it are empty.
   */
  method UpdateFillWidths(b: Bar, segmentIndex: int, progress: real) returns (r: Bar)
    requires WellFormed(b)
    ensures WellFormed(r) && r.segments == b.segments
    ensures r.fills == FilledWidths(b, segmentIndex, progress)
    ensures forall i :: 0 <= i < |r.fills| && i < segmentIndex ==> r.fills[i] == b.segments[i]
    ensures 0 <= segmentIndex < |r.fills| ==> r.fills[segmentIndex] == b.segments[segmentIndex] * progress
    ensures forall i :: 0 <= i < |r.fills| && i > segmentIndex ==> r.fills[i] == 0.0
  {
    var fills := b.fills;
    var index := 0;
    while index < |fills|
      invariant 0 <= index <= |fills| == |b.segments|
      invariant forall i :: 0 <= i < index ==> fills[i] == FillWidth(b.segments, segmentIndex, progress, i)
    {
      fills := fills[index := FillWidth(b.segments, segmentIndex, progress, index)];
      index := index + 1;
    }
    r := b.(fills := fills);
  }

  /** `updateProgress`: ignored when `segmentIndex` is past the last fill. */
  method UpdateProgress(b: Bar, segmentIndex: int, progress: real) returns (r: Bar)
    requires WellFormed(b)
    ensures segmentIndex >= |b.fills| ==> r == b
    ensures WellFormed(r) && r.segments == b.segments
    ensures segmentIndex < |b.fills| ==> r.fills == FilledWidths(b, segmentIndex, progress)
  {
    if segmentIndex >= |b.fills| {
      return b;
    }
    r := UpdateFillWidths(b, segmentIndex, progress);
  }

  /** A negative index passes the guard and empties every fill. */
  lemma NegativeIndexEmptiesBar(b: Bar, segmentIndex: int, progress: real)
    requires WellFormed(b)
    requires segmentIndex < 0
    ensures segmentIndex < |b.fills|
    ensures forall i :: 0 <= i < |b.fills| ==> FilledWidths(b, segmentIndex, progress)[i] == 0.0
  {
  }

  /** `resetProgressWithoutAnimation`: every fill back to zero width. */
  function ResetProgress(b: Bar): (r: Bar)
    requires WellFormed(b)
    ensures WellFormed(r) && r.segments == b.segments
    ensures forall i :: 0 <= i < |r.fills| ==> r.fills[i] == 0.0
  {
    b.(fills := seq(|b.fills|, _ => 0.0))
  }

  /** Resetting twice is resetting once. */
  lemma ResetIdempotent(b: Bar)
    requires WellFormed(b)
    ensures ResetProgress(ResetProgress(b)) == ResetProgress(b)
  {
  }

  /** Resetting a freshly built bar changes nothing. */
  lemma ResetOfInitIsInit(n: int, screenWidth: real)
    requires n >= 0
    ensures ResetProgress(Init(n, screenWidth)) == Init(n, screenWidth)
  {
  }
}
