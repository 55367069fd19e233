/**
 * The per-point work of the marker constructor: the stride subsampling of cube
 * and sphere lists (`for (p = 0; p < n; p += ceil(n / 1250))`) and the choice
 * between per-point colours and the single message colour.
 */
module PointLists {
  import opened Wrappers
  import opened Messages

  /** The largest number of elements a cube or sphere list is drawn with. */
  const MaxListElements: nat := 1250

  /** `Math.ceil(n / 1250)`, which is 0 for an empty list. */
  function StepSize(n: nat): (step: nat)
    ensures n == 0 <==> step == 0
    ensures n > 0 ==> (step - 1) * 1250 < n <= step * 1250
  {
    (n + 1249) / 1250
  }

  /** The indices `p, p + step, p + 2 * step, ...` below `n`, in the order the loop visits them. */
  function StrideFrom(p: nat, n: nat, step: nat): (r: seq<nat>)
    requires step > 0
    ensures forall k | 0 <= k < |r| :: p <= r[k] < n
    ensures p < n ==> |r| > 0 && r[0] == p
    ensures n <= p ==> r == []
    decreases if p < n then n - p else 0
  {
    if p < n then [p] + StrideFrom(p + step, n, step) else []
  }

  /** The indices of a list of `n` points that the constructor turns into elements. */
  function Visited(n: nat): (r: seq<nat>)
    ensures forall k | 0 <= k < |r| :: r[k] < n
    ensures n > 0 ==> |r| > 0 && r[0] == 0
  {
    if n == 0 then [] else StrideFrom(0, n, StepSize(n))
  }

  lemma {:induction false} StrideFromAt(p: nat, n: nat, step: nat, k: nat)
    requires step > 0
    requires k < |StrideFrom(p, n, step)|
    ensures StrideFrom(p, n, step)[k] == p + k * step
    decreases k
  {
    if k > 0 {
      StrideFromAt(p + step, n, step, k - 1);
      assert StrideFrom(p, n, step)[k] == StrideFrom(p + step, n, step)[k - 1];
      assert (k - 1) * step + step == k * step;
    }
  }

  lemma {:induction false} StrideFromLength(p: nat, n: nat, step: nat)
    requires step > 0
    requires p < n
    ensures p + (|StrideFrom(p, n, step)| - 1) * step < n <= p + |StrideFrom(p, n, step)| * step
    decreases n - p
  {
    var len := |StrideFrom(p, n, step)|;
    if p + step < n {
      StrideFromLength(p + step, n, step);
      assert |StrideFrom(p + step, n, step)| == len - 1;
      assert (len - 2) * step + step == (len - 1) * step;
      assert (len - 1) * step + step == len * step;
    } else {
      assert StrideFrom(p + step, n, step) == [];
      assert len == 1;
    }
  }

  lemma MulMonotone(a: nat, b: nat, c: nat)
    requires a <= b
    ensures a * c <= b * c
  {
  }

  /** The `k`-th visited index is `k * step`: every visited index is a multiple of the step. */
  lemma VisitedAt(n: nat)
    ensures forall k | 0 <= k < |Visited(n)| :: Visited(n)[k] == k * StepSize(n) && Visited(n)[k] < n
  {
    if n > 0 {
      forall k | 0 <= k < |Visited(n)|
        ensures Visited(n)[k] == k * StepSize(n)
      {
        StrideFromAt(0, n, StepSize(n), k);
      }
    }
  }

  /** Every visited index is divisible by the step. */
  lemma VisitedDivisible(n: nat)
    requires n > 0
    ensures forall k | 0 <= k < |Visited(n)| :: Visited(n)[k] % StepSize(n) == 0
  {
    VisitedAt(n);
    forall k | 0 <= k < |Visited(n)|
      ensures Visited(n)[k] % StepSize(n) == 0
    {
      MultipleMod(k, StepSize(n));
    }
  }

  lemma MultipleMod(k: nat, step: nat)
    requires step > 0
    ensures (k * step) % step == 0
  {
    var x := k * step;
    var q, r := x / step, x % step;
    assert x == q * step + r && 0 <= r < step;
    assert (k - q) * step == r;
    if k - q >= 1 {
      MulMonotone(1, k - q, step);
    } else if k - q <= -1 {
      MulMonotone(1, q - k, step);
    }
  }

  /** Visited indices are strictly increasing, so no index is visited twice. */
  lemma VisitedIncreasing(n: nat)
    ensures forall i, j | 0 <= i < j < |Visited(n)| :: Visited(n)[i] < Visited(n)[j]
  {
    VisitedAt(n);
    forall i, j | 0 <= i < j < |Visited(n)|
      ensures Visited(n)[i] < Visited(n)[j]
    {
      MulMonotone(i + 1, j, StepSize(n));
      assert (i + 1) * StepSize(n) == i * StepSize(n) + StepSize(n);
    }
  }

  /** Every multiple of the step below `n` is visited. */
  lemma VisitedComplete(n: nat, j: nat)
    requires n > 0
    requires j * StepSize(n) < n
    ensures j < |Visited(n)| && Visited(n)[j] == j * StepSize(n)
  {
    var len := |Visited(n)|;
    StrideFromLength(0, n, StepSize(n));
    if len <= j {
      MulMonotone(len, j, StepSize(n));
      assert false;
    }
    VisitedAt(n);
  }

  /** However long the list, at most 1250 elements are visited. */
  lemma VisitedAtMost(n: nat)
    ensures |Visited(n)| <= MaxListElements
  {
    if n > 0 {
      var step, len := StepSize(n), |Visited(n)|;
      StrideFromLength(0, n, step);
      if len > 1250 {
        MulMonotone(1250, len - 1, step);
        assert false;
      }
    }
  }

  /** A list of at most 1250 points has step 1: every index is visited, in order, once. */
  lemma SmallListVisitsAll(n: nat)
    requires 0 < n <= MaxListElements
    ensures StepSize(n) == 1
    ensures |Visited(n)| == n
    ensures forall i | 0 <= i < n :: Visited(n)[i] == i
  {
    assert StepSize(n) == 1;
    StrideFromLength(0, n, 1);
    VisitedAt(n);
  }

  // ---------------------------------------------------------------------------
  // Cube and sphere lists

  /** One drawn element of a cube or sphere list. */
  datatype ListElement = ListElement(position: Vector3, color: ColorRGBA, scale: Vector3)

  /** Per-point colours are used exactly when there is one colour per point. */
  predicate PerPointColors(points: seq<Vector3>, colors: seq<ColorRGBA>) {
    |colors| == |points|
  }

  /** The element the loop builds for index `p`. */
  function ElementAt(points: seq<Vector3>, colors: seq<ColorRGBA>, color: ColorRGBA,
                     scale: Vector3, p: nat): (e: ListElement)
    requires p < |points|
    ensures e.position == points[p] && e.scale == scale
    ensures PerPointColors(points, colors) ==> e.color == colors[p]
    ensures !PerPointColors(points, colors) ==> e.color == color
  {
    ListElement(points[p], if PerPointColors(points, colors) then colors[p] else color, scale)
  }

  /** The elements built from the indices `idx`, in that order. */
  function ElementsAt(points: seq<Vector3>, colors: seq<ColorRGBA>, color: ColorRGBA,
                      scale: Option<Vector3>, idx: seq<nat>): (r: seq<ListElement>)
    requires points != [] ==> scale.Some?
    requires forall k | 0 <= k < |idx| :: idx[k] < |points|
  {
    if points == [] then []  // no index is below 0, so `idx` is empty too
    else seq(|idx|, k requires 0 <= k < |idx| => ElementAt(points, colors, color, scale.value, idx[k]))
  }

  /** The elements the constructor builds for a cube or sphere list. */
  function SubsampledElements(points: seq<Vector3>, colors: seq<ColorRGBA>, color: ColorRGBA,
                              scale: Option<Vector3>): (r: seq<ListElement>)
    requires points != [] ==> scale.Some?
  {
    ElementsAt(points, colors, color, scale, Visited(|points|))
  }

  /**
   * What the subsampled elements are: none for an empty list, at most 1250, and
   * the `k`-th taken from point `k * step`.
   */
  lemma SubsampledElementsAt(points: seq<Vector3>, colors: seq<ColorRGBA>, color: ColorRGBA,
                             scale: Option<Vector3>)
    requires points != [] ==> scale.Some?
    ensures var r := SubsampledElements(points, colors, color, scale);
            && (points == [] ==> r == [])
            && |r| == |Visited(|points|)| <= MaxListElements
            && forall k | 0 <= k < |r| ::
                 && k * StepSize(|points|) < |points|
                 && r[k] == ElementAt(points, colors, color, scale.value, k * StepSize(|points|))
  {
    VisitedAt(|points|);
    VisitedAtMost(|points|);
  }

  lemma ElementsAtAppend(points: seq<Vector3>, colors: seq<ColorRGBA>, color: ColorRGBA,
                         scale: Option<Vector3>, idx: seq<nat>, p: nat)
    requires points != [] ==> scale.Some?
    requires forall k | 0 <= k < |idx| :: idx[k] < |points|
    requires p < |points|
    ensures ElementsAt(points, colors, color, scale, idx + [p]) ==
            ElementsAt(points, colors, color, scale, idx) + [ElementAt(points, colors, color, scale.value, p)]
  {
  }

  lemma StrideAdvance(seen: seq<nat>, p: nat, n: nat, step: nat)
    requires step > 0 && p < n
    ensures seen + StrideFrom(p, n, step) == (seen + [p]) + StrideFrom(p + step, n, step)
  {
    assert StrideFrom(p, n, step) == [p] + StrideFrom(p + step, n, step);
  }

  /**
   * The constructor's loop over a cube or sphere list; `scale` is the message
   * scale every element is drawn with, read only when there is a point.
   */
  method Subsample(points: seq<Vector3>, colors: seq<ColorRGBA>, color: ColorRGBA,
                   scale: Option<Vector3>) returns (elements: seq<ListElement>)
    requires points != [] ==> scale.Some?
    ensures elements == SubsampledElements(points, colors, color, scale)
  {
    var numPoints := |points|;
    var createColors := numPoints == |colors|;
    var stepSize := StepSize(numPoints);
    elements := [];
    ghost var seen: seq<nat> := [];
    var p: nat := 0;
    while p < numPoints
      invariant numPoints > 0 ==> seen + StrideFrom(p, numPoints, stepSize) == Visited(numPoints)
      invariant numPoints == 0 ==> seen == []
      invariant forall k | 0 <= k < |seen| :: seen[k] < numPoints
      invariant elements == ElementsAt(points, colors, color, scale, seen)
      decreases numPoints - p
    {
      var cur := if createColors then colors[p] else color;
      ElementsAtAppend(points, colors, color, scale, seen, p);
      StrideAdvance(seen, p, numPoints, stepSize);
      elements := elements + [ListElement(points[p], cur, scale.value)];
      seen := seen + [p];
      p := p + stepSize;
    }
    if numPoints > 0 {
      assert StrideFrom(p, numPoints, stepSize) == [];
      assert seen + [] == seen;
    }
    assert seen == Visited(numPoints);
  }

  // ---------------------------------------------------------------------------
  // Lines and points

  /** A colour as `setRGB` receives it: the alpha component is not passed. */
  datatype RGB = RGB(r: real, g: real, b: real)

  function RgbOf(c: ColorRGBA): (rgb: RGB) {
    RGB(c.r, c.g, c.b)
  }

  /** One colour per vertex, or one colour for the whole material. */
  datatype Coloring = PerVertex(rgbs: seq<RGB>) | Uniform(rgb: RGB)

  /** The colouring of a line strip, line list or point cloud. */
  function VertexColoring(points: seq<Vector3>, colors: seq<ColorRGBA>, color: ColorRGBA): (c: Coloring)
  {
    if PerPointColors(points, colors) then
      PerVertex(seq(|points|, k requires 0 <= k < |points| => RgbOf(colors[k])))
    else
      Uniform(RgbOf(color))
  }

  /**
   * Per-vertex colours are used exactly when the counts agree, and then vertex `k`
   * has colour `k`; otherwise the material has the message colour.
   */
  lemma VertexColoringChoice(points: seq<Vector3>, colors: seq<ColorRGBA>, color: ColorRGBA)
    ensures var c := VertexColoring(points, colors, color);
            && (c.PerVertex? <==> |colors| == |points|)
            && (c.PerVertex? ==>
                  && |c.rgbs| == |points|
                  && forall k | 0 <= k < |points| :: c.rgbs[k] == RgbOf(colors[k]))
            && (c.Uniform? ==> c.rgb == RgbOf(color))
  {
  }

  /** The colour loop shared by line strips, line lists and point clouds. */
  method VertexColors(points: seq<Vector3>, colors: seq<ColorRGBA>, color: ColorRGBA)
      returns (c: Coloring)
    ensures c == VertexColoring(points, colors, color)
  {
    if |colors| == |points| {
      var rgbs: seq<RGB> := [];
      var k := 0;
      while k < |points|
        invariant 0 <= k <= |points|
        invariant |rgbs| == k
        invariant forall i | 0 <= i < k :: rgbs[i] == RgbOf(colors[i])
      {
        rgbs := rgbs + [RGB(colors[k].r, colors[k].g, colors[k].b)];
        k := k + 1;
      }
      c := PerVertex(rgbs);
    } else {
      c := Uniform(RGB(color.r, color.g, color.b));
    }
  }
}
