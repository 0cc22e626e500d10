/**
 * The path that the waveform view strokes: for a list of samples and a
 * canvas size, one move to the left end of the mid-line and then, sample by
 * sample from left to right, four lines to the corners of the sample's
 * rectangle and a close. The rectangle's width is the canvas width shared
 * equally by the samples; its height is the sample scaled to the canvas
 * height, centred on the mid-line. "Rectangle" here names those four corner
 * points only: a close carries no target, and the lemmas below speak of the
 * line endpoints alone.
 *
 * Coordinates are exact reals: the floating-point rounding of the view's
 * `Double` arithmetic is not modelled.
 */
module Waveform {

  /** One drawing command of a path. */
  datatype PathCmd = Move(x: real, y: real) | Line(x: real, y: real) | Close

  /** Width of one sample's rectangle: the canvas width divided by the number of samples. */
  function Step(width: real, sampleCount: nat): real
    requires sampleCount > 0
  {
    width / sampleCount as real
  }

  /** Half-height of a sample's rectangle: the sample scaled to half the canvas height. */
  function Amplitude(sample: real, height: real): real
  {
    sample * height / 2.0
  }

  /** Left edge of the rectangle of sample `i`. */
  function LeftX(samples: seq<real>, width: real, i: nat): real
    requires |samples| > 0
  {
    i as real * Step(width, |samples|)
  }

  /** The commands drawn for sample `i`: lines to the four corners of its rectangle, then a close. */
  function Rectangle(samples: seq<real>, width: real, height: real, i: nat): (r: seq<PathCmd>)
    requires i < |samples|
    ensures |r| == 5 && r[4] == Close
    ensures forall j :: 0 <= j < 4 ==> r[j].Line?
  {
    var x := LeftX(samples, width, i);
    var step := Step(width, |samples|);
    var midY := height / 2.0;
    var a := Amplitude(samples[i], height);
    [Line(x, midY - a), Line(x, midY + a), Line(x + step, midY + a), Line(x + step, midY - a), Close]
  }

  /** The rectangles of the first `k` samples, in sample order. */
  function Rectangles(samples: seq<real>, width: real, height: real, k: nat): (r: seq<PathCmd>)
    requires k <= |samples|
    ensures |r| == 5 * k
  {
    if k == 0 then []
    else Rectangles(samples, width, height, k - 1) + Rectangle(samples, width, height, k - 1)
  }

  /** The whole path of the view for `samples` on a `width` by `height` canvas. */
  function WaveformPath(samples: seq<real>, width: real, height: real): seq<PathCmd>
  {
    if |samples| == 0 then []
    else [Move(0.0, height / 2.0)] + Rectangles(samples, width, height, |samples|)
  }

  /**
   * The path builder of the view, written as the step-by-step construction
   * it performs: nothing when there are no samples, otherwise a move to the
   * mid-line followed by four lines and a close per sample.
   */
  method BuildPath(samples: seq<real>, width: real, height: real) returns (path: seq<PathCmd>)
    ensures path == WaveformPath(samples, width, height)
  {
    path := [];
    var sampleCount := |samples|;
    if sampleCount == 0 {
      return;
    }
    var step := width / sampleCount as real;
    var midY := height / 2.0;
    path := path + [Move(0.0, midY)];
    for i := 0 to sampleCount
      invariant path == [Move(0.0, midY)] + Rectangles(samples, width, height, i)
    {
      ghost var before := path;
      var x := i as real * step;
      var amplitude := samples[i] * height / 2.0;
      path := path + [Line(x, midY - amplitude)];
      path := path + [Line(x, midY + amplitude)];
      path := path + [Line(x + step, midY + amplitude)];
      path := path + [Line(x + step, midY - amplitude)];
      path := path + [Close];
      assert path == before + [Line(x, midY - amplitude), Line(x, midY + amplitude),
        Line(x + step, midY + amplitude), Line(x + step, midY - amplitude), Close];
      assert x == LeftX(samples, width, i) && amplitude == Amplitude(samples[i], height);
      assert path == before + Rectangle(samples, width, height, i);
    }
  }

  /** Within the first `k` rectangles, those of sample `i` start at index `5 * i`. */
  lemma {:induction false} RectanglesAt(samples: seq<real>, width: real, height: real, k: nat, i: nat)
    requires i < k <= |samples|
    ensures Rectangles(samples, width, height, k)[5 * i .. 5 * i + 5] == Rectangle(samples, width, height, i)
  {
    var prefix := Rectangles(samples, width, height, k - 1);
    if i < k - 1 {
      RectanglesAt(samples, width, height, k - 1, i);
      assert Rectangles(samples, width, height, k)[5 * i .. 5 * i + 5] == prefix[5 * i .. 5 * i + 5];
    } else {
      assert Rectangles(samples, width, height, k)[5 * i .. 5 * i + 5]
          == (prefix + Rectangle(samples, width, height, i))[|prefix|..];
    }
  }

  /**
   * The shape of the path: empty without samples; otherwise exactly one
   * command to start plus five per sample, the first a move to the left end
   * of the mid-line.
   */
  lemma PathShape(samples: seq<real>, width: real, height: real)
    ensures var path := WaveformPath(samples, width, height);
      && (|samples| == 0 ==> path == [])
      && (|samples| > 0 ==> |path| == 1 + 5 * |samples| && path[0] == Move(0.0, height / 2.0))
  {
  }

  /** In the whole path, the commands of sample `i` are its rectangle, right after the first command and the rectangles before it. */
  lemma RectangleInPath(samples: seq<real>, width: real, height: real, i: nat)
    requires i < |samples|
    ensures var path := WaveformPath(samples, width, height);
      && |path| == 1 + 5 * |samples|
      && path[1 + 5 * i .. 1 + 5 * i + 5] == Rectangle(samples, width, height, i)
  {
    var rects := Rectangles(samples, width, height, |samples|);
    RectanglesAt(samples, width, height, |samples|, i);
    assert WaveformPath(samples, width, height)[1..] == rects;
  }

  /**
   * The five commands of sample `i`: starting at index `1 + 5 * i`, lines to
   * the top-left, bottom-left, bottom-right and top-right corners of a
   * rectangle from `i * step` to `i * step + step` horizontally and from
   * `midY - a` to `midY + a` vertically, then a close.
   */
  lemma SampleRectangle(samples: seq<real>, width: real, height: real, i: nat)
    requires i < |samples|
    ensures var path := WaveformPath(samples, width, height);
      var step := width / |samples| as real;
      var left := i as real * step;
      var midY := height / 2.0;
      var a := samples[i] * height / 2.0;
      && 1 + 5 * i + 4 < |path|
      && path[1 + 5 * i] == Line(left, midY - a)
      && path[1 + 5 * i + 1] == Line(left, midY + a)
      && path[1 + 5 * i + 2] == Line(left + step, midY + a)
      && path[1 + 5 * i + 3] == Line(left + step, midY - a)
      && path[1 + 5 * i + 4] == Close
  {
    var path := WaveformPath(samples, width, height);
    var r := Rectangle(samples, width, height, i);
    RectangleInPath(samples, width, height, i);
    assert path[1 + 5 * i] == r[0];
    assert path[1 + 5 * i + 1] == r[1];
    assert path[1 + 5 * i + 2] == r[2];
    assert path[1 + 5 * i + 3] == r[3];
    assert path[1 + 5 * i + 4] == r[4];
  }

  /**
   * Kinds of commands: the only move is the first command, and after it
   * every fifth command is a close while all others are lines.
   */
  lemma CommandKinds(samples: seq<real>, width: real, height: real, j: nat)
    requires j < |WaveformPath(samples, width, height)|
    ensures var path := WaveformPath(samples, width, height);
      && (path[j].Move? <==> j == 0)
      && (j > 0 ==> (path[j].Close? <==> (j - 1) % 5 == 4))
      && (j > 0 ==> (path[j].Line? <==> (j - 1) % 5 < 4))
  {
    if j > 0 {
      var i, m := (j - 1) / 5, (j - 1) % 5;
      assert j == 1 + 5 * i + m;
      RectangleCommand(samples, width, height, i, m);
    }
  }

  /** Command `m` of sample `i`'s rectangle, in the whole path. */
  lemma RectangleCommand(samples: seq<real>, width: real, height: real, i: nat, m: nat)
    requires i < |samples| && m < 5
    ensures var path := WaveformPath(samples, width, height);
      1 + 5 * i + m < |path| && path[1 + 5 * i + m] == Rectangle(samples, width, height, i)[m]
  {
    var path := WaveformPath(samples, width, height);
    RectangleInPath(samples, width, height, i);
    assert path[1 + 5 * i + m] == path[1 + 5 * i .. 1 + 5 * i + 5][m];
  }

  /** Each rectangle is symmetric about the mid-line: its top and bottom are equally far from it. */
  lemma RectangleSymmetric(samples: seq<real>, width: real, height: real, i: nat)
    requires i < |samples|
    ensures var path := WaveformPath(samples, width, height);
      && 1 + 5 * i + 4 < |path|
      && path[1 + 5 * i].Line? && path[1 + 5 * i + 1].Line?
      && path[1 + 5 * i + 2].Line? && path[1 + 5 * i + 3].Line?
      && path[1 + 5 * i].y + path[1 + 5 * i + 1].y == height
      && path[1 + 5 * i + 3].y + path[1 + 5 * i + 2].y == height
      && height / 2.0 - path[1 + 5 * i].y == path[1 + 5 * i + 1].y - height / 2.0
  {
    SampleRectangle(samples, width, height, i);
  }

  /** Adjacent rectangles share an edge: the right edge of sample `i` is the left edge of sample `i + 1`. */
  lemma RectanglesAdjacent(samples: seq<real>, width: real, height: real, i: nat)
    requires i + 1 < |samples|
    ensures var path := WaveformPath(samples, width, height);
      && 1 + 5 * (i + 1) + 1 < |path|
      && path[1 + 5 * i + 2].Line? && path[1 + 5 * i + 3].Line?
      && path[1 + 5 * (i + 1)].Line? && path[1 + 5 * (i + 1) + 1].Line?
      && path[1 + 5 * i + 2].x == path[1 + 5 * (i + 1)].x
      && path[1 + 5 * i + 3].x == path[1 + 5 * (i + 1) + 1].x
  {
    var path := WaveformPath(samples, width, height);
    var step := width / |samples| as real;
    SampleRectangle(samples, width, height, i);
    assert path[1 + 5 * i + 2].x == i as real * step + step;
    SampleRectangle(samples, width, height, i + 1);
    assert path[1 + 5 * (i + 1)].x == (i + 1) as real * step;
    NextLeftEdge(i, step);
  }

  /** The first rectangle starts at the left border and the last one ends at the right border, `x == width`. */
  lemma RectanglesSpanWidth(samples: seq<real>, width: real, height: real)
    requires |samples| > 0
    ensures var path := WaveformPath(samples, width, height);
      var n := |samples|;
      && |path| == 1 + 5 * n
      && path[1].Line? && path[1 + 5 * (n - 1) + 2].Line? && path[1 + 5 * (n - 1) + 3].Line?
      && path[1].x == 0.0
      && path[1 + 5 * (n - 1) + 2].x == width
      && path[1 + 5 * (n - 1) + 3].x == width
  {
    var path := WaveformPath(samples, width, height);
    var n := |samples|;
    var step := width / n as real;
    SampleRectangle(samples, width, height, 0);
    assert path[1].x == 0 as real * step;
    SampleRectangle(samples, width, height, n - 1);
    assert path[1 + 5 * (n - 1) + 2].x == (n - 1) as real * step + step;
    assert path[1 + 5 * (n - 1) + 3].x == (n - 1) as real * step + step;
    NextLeftEdge(n - 1, step);
    assert n as real * step == width;
  }

  /** On a canvas of non-negative width, rectangles appear left to right in sample order. */
  lemma RectanglesLeftToRight(samples: seq<real>, width: real, height: real, i: nat, j: nat)
    requires i < j < |samples|
    requires width >= 0.0
    ensures var path := WaveformPath(samples, width, height);
      && 1 + 5 * j < |path|
      && path[1 + 5 * i].Line? && path[1 + 5 * i + 2].Line? && path[1 + 5 * j].Line?
      && path[1 + 5 * i].x <= path[1 + 5 * j].x
      && path[1 + 5 * i + 2].x <= path[1 + 5 * j].x
  {
    var path := WaveformPath(samples, width, height);
    var step := width / |samples| as real;
    SampleRectangle(samples, width, height, i);
    SampleRectangle(samples, width, height, j);
    EdgesInOrder(i, j, width, |samples|);
    calc {
      path[1 + 5 * i].x;
    ==
      i as real * step;
    <=
      j as real * step;
    ==
      path[1 + 5 * j].x;
    }
    calc {
      path[1 + 5 * i + 2].x;
    ==
      i as real * step + step;
    <=
      j as real * step;
    ==
      path[1 + 5 * j].x;
    }
  }

  /** Arithmetic helper: one step to the right of `i * step` is `(i + 1) * step`. */
  lemma NextLeftEdge(i: nat, step: real)
    ensures i as real * step + step == (i + 1) as real * step
  {
  }

  /** Arithmetic helper: with a non-negative step, left edges grow with the index. */
  lemma {:induction false} LaterLeftEdge(i: nat, j: nat, step: real)
    requires i <= j && step >= 0.0
    ensures i as real * step <= j as real * step
  {
    if i < j {
      LaterLeftEdge(i, j - 1, step);
      NextLeftEdge(j - 1, step);
    }
  }

  /** Arithmetic helper: on a canvas of non-negative width, the rectangle at `i` ends no later than the one at `j > i` starts. */
  lemma EdgesInOrder(i: nat, j: nat, width: real, sampleCount: nat)
    requires i < j && width >= 0.0 && sampleCount > 0
    ensures var step := width / sampleCount as real;
      && i as real * step <= j as real * step
      && i as real * step + step <= j as real * step
  {
    var step := width / sampleCount as real;
    assert step >= 0.0;
    NextLeftEdge(i, step);
    LaterLeftEdge(i + 1, j, step);
  }
}
