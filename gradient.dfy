/** The band layout of `draw_gradient`: 100 full-width rectangles stacked down the canvas. */
module Gradient {

  const GRADIENT_STEPS: int := 100

  /** `canvas.create_rectangle(x0, y0, x1, y1)`; colours are not modelled. */
  datatype Rect = Rect(x0: int, y0: int, x1: int, y1: int)

  /**
   * Band `i`: from `i * height // 100` to `(i + 1) * height // 100`. Dafny's `/`
   * by a positive divisor rounds down, as Python's `//` does, for every sign of
   * the dividend.
   */
  function Band(i: int, width: int, height: int): (b: Rect)
    ensures b.x0 == 0 && b.x1 == width
    ensures i == 0 ==> b.y0 == 0
    ensures i == GRADIENT_STEPS - 1 ==> b.y1 == height
    ensures 0 <= height ==> b.y0 <= b.y1
  {
    Rect(0, i * height / GRADIENT_STEPS, width, (i + 1) * height / GRADIENT_STEPS)
  }

  /** The loop of `draw_gradient`, collecting its rectangles in drawing order. */
  method DrawGradient(width: int, height: int) returns (bands: seq<Rect>)
    ensures |bands| == GRADIENT_STEPS
    ensures forall i :: 0 <= i < |bands| ==> bands[i] == Band(i, width, height)
    ensures bands[0].y0 == 0 && bands[GRADIENT_STEPS - 1].y1 == height
    ensures forall i :: 0 <= i < |bands| - 1 ==> bands[i].y1 == bands[i + 1].y0
    ensures forall i :: 0 <= i < |bands| ==> bands[i].x0 == 0 && bands[i].x1 == width
  {
    bands := [];
    for i := 0 to GRADIENT_STEPS
      invariant |bands| == i
      invariant forall j :: 0 <= j < i ==> bands[j] == Band(j, width, height)
    {
      bands := bands + [Band(i, width, height)];
    }
  }

  /** Adding `h >= 0` to a dividend raises its quotient by `h / 100` or one more. */
  lemma QuotientStep(a: int, h: int)
    requires h >= 0
    ensures h / GRADIENT_STEPS <= (a + h) / GRADIENT_STEPS - a / GRADIENT_STEPS <= h / GRADIENT_STEPS + 1
  {
    var q, r := a / GRADIENT_STEPS, a % GRADIENT_STEPS;
    var hq, hr := h / GRADIENT_STEPS, h % GRADIENT_STEPS;
    assert a == GRADIENT_STEPS * q + r && h == GRADIENT_STEPS * hq + hr;
    assert a + h == GRADIENT_STEPS * (q + hq) + (r + hr);
    if r + hr < GRADIENT_STEPS {
      assert (a + h) / GRADIENT_STEPS == q + hq;
    } else {
      assert a + h == GRADIENT_STEPS * (q + hq + 1) + (r + hr - GRADIENT_STEPS);
      assert (a + h) / GRADIENT_STEPS == q + hq + 1;
    }
  }

  /** On a canvas of non-negative height every band is `height // 100` or one pixel taller. */
  lemma BandHeight(i: int, width: int, height: int)
    requires height >= 0
    ensures var b := Band(i, width, height);
      height / GRADIENT_STEPS <= b.y1 - b.y0 <= height / GRADIENT_STEPS + 1
  {
    assert (i + 1) * height == i * height + height;
    QuotientStep(i * height, height);
  }

  /** The total height of the first `n` bands of `bands`. */
  function Covered(bands: seq<Rect>, n: nat): int
    requires n <= |bands|
  {
    if n == 0 then 0 else Covered(bands, n - 1) + (bands[n - 1].y1 - bands[n - 1].y0)
  }

  /** Stacked bands cover exactly the span from the first top to the last bottom. */
  lemma {:induction false} CoveredTelescopes(bands: seq<Rect>, n: nat)
    requires 0 < n <= |bands|
    requires forall i :: 0 <= i < |bands| - 1 ==> bands[i].y1 == bands[i + 1].y0
    ensures Covered(bands, n) == bands[n - 1].y1 - bands[0].y0
  {
    if n > 1 {
      CoveredTelescopes(bands, n - 1);
    }
  }

  /** The 100 bands neither overlap nor leave a gap: their heights add up to the canvas height. */
  lemma GradientCoversCanvas(width: int, height: int, bands: seq<Rect>)
    requires |bands| == GRADIENT_STEPS
    requires forall i :: 0 <= i < |bands| ==> bands[i] == Band(i, width, height)
    ensures Covered(bands, GRADIENT_STEPS) == height
  {
    assert bands[0].y0 == 0 && bands[GRADIENT_STEPS - 1].y1 == height;
    assert forall i :: 0 <= i < |bands| - 1 ==> bands[i].y1 == bands[i + 1].y0;
    CoveredTelescopes(bands, GRADIENT_STEPS);
  }
}
