/** `point_to_segment_distance` of the collision utilities.

    Dafny has no square root, so the model returns the SQUARE of the distance
    the source returns: every branch of the source returns the norm of one
    vector, and the model returns the squared norm of that same vector. The
    norm is monotone in the squared norm, so which branch is taken, the
    clamped projection parameter and the minimality of the result carry over. */
module MathUtils {
  import opened Algebra

  /** The point `start + s * (end - start)`; on the closed segment when 0 <= s <= 1. */
  function PointOnSegment(start: Vec3, end: Vec3, s: real): (p: Vec3)
    ensures s == 0.0 ==> p == start
    ensures s == 1.0 ==> p == end
  {
    Add(start, Scale(s, Sub(end, start)))
  }

  /** Sliding along v by t, the offset from w changes its dot product with v
      by t |v|^2. */
  lemma {:induction false} DotScaleSub(t: real, v: Vec3, w: Vec3)
    ensures Dot(Sub(Scale(t, v), w), v) == t * NormSq(v) - Dot(w, v)
  {
    assert (t * v.x - w.x) * v.x == t * (v.x * v.x) - w.x * v.x;
    assert (t * v.y - w.y) * v.y == t * (v.y * v.y) - w.y * v.y;
    assert (t * v.z - w.z) * v.z == t * (v.z * v.z) - w.z * v.z;
    assert t * NormSq(v) == t * (v.x * v.x) + t * (v.y * v.y) + t * (v.z * v.z);
  }

  /** The scalar projection parameter of `point` onto the line through a
      segment of non-zero length: the point of that parameter is the foot of
      the perpendicular from `point`. */
  function ProjectionParameter(point: Vec3, start: Vec3, end: Vec3): (t: real)
    requires NormSq(Sub(end, start)) != 0.0
    ensures Dot(Sub(PointOnSegment(start, end, t), point), Sub(end, start)) == 0.0
  {
    var v := Sub(end, start);
    var w := Sub(point, start);
    var t := Dot(w, v) / NormSq(v);
    assert t * NormSq(v) == Dot(w, v);
    assert Sub(PointOnSegment(start, end, t), point) == Sub(Scale(t, v), w);
    DotScaleSub(t, v, w);
    t
  }

  /** The squared distance from `point` to the segment from `start` to `end`,
      following the source's branches: degenerate segment, clamp to start,
      clamp to end, interior projection. */
  function PointToSegmentDistanceSq(point: Vec3, start: Vec3, end: Vec3): (d: real)
    ensures d >= 0.0
  {
    var segment := Sub(end, start);
    var segmentLenSq := NormSq(segment);
    if segmentLenSq == 0.0 then
      NormSq(Sub(start, point))
    else
      var t := Dot(Sub(point, start), segment) / segmentLenSq;
      if t < 0.0 then
        NormSq(Sub(start, point))
      else if t > 1.0 then
        NormSq(Sub(end, point))
      else
        var projection := Add(start, Scale(t, segment));
        NormSq(Sub(projection, point))
  }

  /** A zero-length segment gives the distance to its start point. */
  lemma {:induction false} DegenerateSegment(point: Vec3, start: Vec3, end: Vec3)
    requires end == start
    ensures PointToSegmentDistanceSq(point, start, end) == NormSq(Sub(start, point))
  {
    assert Sub(end, start) == Zero;
  }

  /** The three branches of a segment of non-zero length, selected by the
      projection parameter t: clamp to start below 0, clamp to end above 1,
      and in between the point of parameter t. */
  lemma {:induction false} ProperSegmentBranches(point: Vec3, start: Vec3, end: Vec3)
    requires NormSq(Sub(end, start)) != 0.0
    ensures var t := ProjectionParameter(point, start, end);
      var d := PointToSegmentDistanceSq(point, start, end);
      && (t < 0.0 ==> d == NormSq(Sub(start, point)))
      && (t > 1.0 ==> d == NormSq(Sub(end, point)))
      && (0.0 <= t <= 1.0 ==> d == NormSq(Sub(PointOnSegment(start, end, t), point)))
  {
  }

  /** The parameter of the segment point the source measures to: the
      projection parameter clamped to [0, 1], and 0 for a degenerate segment. */
  function ClosestParameter(point: Vec3, start: Vec3, end: Vec3): (s: real)
    ensures 0.0 <= s <= 1.0
    ensures PointToSegmentDistanceSq(point, start, end) == NormSq(Sub(PointOnSegment(start, end, s), point))
  {
    var segment := Sub(end, start);
    if NormSq(segment) == 0.0 then
      assert PointOnSegment(start, end, 0.0) == start;
      0.0
    else
      var t := Dot(Sub(point, start), segment) / NormSq(segment);
      if t < 0.0 then
        assert PointOnSegment(start, end, 0.0) == start;
        0.0
      else if t > 1.0 then
        assert PointOnSegment(start, end, 1.0) == end;
        1.0
      else
        t
  }

  /** On a degenerate segment every parameter gives the same distance. */
  lemma {:induction false} DegenerateBound(s: real, len: real, c: real, w: real)
    requires len == 0.0 && c == 0.0
    ensures Quadratic(s, len, c, w) == Quadratic(0.0, len, c, w)
  {
  }

  /** When the projection parameter c / len is negative, no s >= 0 does
      better than s = 0. */
  lemma {:induction false} ClampStartBound(s: real, len: real, c: real, w: real)
    requires 0.0 <= s && len > 0.0 && c / len < 0.0
    ensures Quadratic(s, len, c, w) >= Quadratic(0.0, len, c, w)
  {
    assert c < 0.0;
    assert s * c <= 0.0;
    assert s * s >= 0.0;
    assert s * s * len >= 0.0;
  }

  /** When the projection parameter exceeds 1, no s <= 1 does better than s = 1. */
  lemma {:induction false} ClampEndBound(s: real, len: real, c: real, w: real)
    requires 0.0 <= s <= 1.0 && len > 0.0 && c / len > 1.0
    ensures Quadratic(s, len, c, w) >= Quadratic(1.0, len, c, w)
  {
    assert c / len * len == c;
    assert (c / len - 1.0) * len > 0.0;
    assert c > len;
    assert (1.0 - s) * len >= 0.0;
    assert len * (s + 1.0) - 2.0 * c < 0.0;
    assert (s * s * len - 2.0 * s * c + w) - (len - 2.0 * c + w) == (s - 1.0) * (len * (s + 1.0) - 2.0 * c);
    assert (s - 1.0) * (len * (s + 1.0) - 2.0 * c) >= 0.0;
  }

  /** The projection parameter t = c / len itself minimises the quadratic. */
  lemma {:induction false} InteriorBound(s: real, t: real, len: real, c: real, w: real)
    requires len > 0.0 && t == c / len
    ensures Quadratic(s, len, c, w) >= Quadratic(t, len, c, w)
  {
    assert c == t * len;
    assert (s * s * len - 2.0 * s * c + w) - (t * t * len - 2.0 * t * c + w) == len * ((s - t) * (s - t));
    assert (s - t) * (s - t) >= 0.0;
    assert len * ((s - t) * (s - t)) >= 0.0;
  }

  /** The offset from `point` to the point of parameter s is s v - w, with
      v = end - start and w = point - start. */
  lemma {:induction false} OffsetFromPoint(point: Vec3, start: Vec3, end: Vec3, s: real)
    ensures Sub(PointOnSegment(start, end, s), point) == Sub(Scale(s, Sub(end, start)), Sub(point, start))
  {
    var p := PointOnSegment(start, end, s);
    assert p.x - point.x == s * (end.x - start.x) - (point.x - start.x);
    assert p.y - point.y == s * (end.y - start.y) - (point.y - start.y);
    assert p.z - point.z == s * (end.z - start.z) - (point.z - start.z);
  }

  /** The squared distance from `point` to the point of parameter s, as a
      quadratic in s: s^2 |v|^2 - 2 s (w . v) + |w|^2 with v = end - start and
      w = point - start. */
  lemma {:induction false} DistanceAlongSegment(point: Vec3, start: Vec3, end: Vec3, s: real)
    ensures NormSq(Sub(PointOnSegment(start, end, s), point))
      == Quadratic(s, NormSq(Sub(end, start)), Dot(Sub(point, start), Sub(end, start)), NormSq(Sub(point, start)))
  {
    var v := Sub(end, start);
    var w := Sub(point, start);
    OffsetFromPoint(point, start, end, s);
    ExpandNormSq(s, v, w);
  }

  /** The result is the least squared distance from `point` to any point of
      the closed segment: the source's answer really is the distance to the segment. */
  lemma {:induction false} DistanceIsMinimal(point: Vec3, start: Vec3, end: Vec3, s: real)
    requires 0.0 <= s <= 1.0
    ensures PointToSegmentDistanceSq(point, start, end) <= NormSq(Sub(PointOnSegment(start, end, s), point))
  {
    var len := NormSq(Sub(end, start));
    var c := Dot(Sub(point, start), Sub(end, start));
    var w := NormSq(Sub(point, start));
    var p := ClosestParameter(point, start, end);
    DistanceAlongSegment(point, start, end, s);
    DistanceAlongSegment(point, start, end, p);
    if len == 0.0 {
      ZeroNormOrthogonal(Sub(end, start), Sub(point, start));
      assert p == 0.0;
      DegenerateBound(s, len, c, w);
    } else if c / len < 0.0 {
      assert p == 0.0;
      ClampStartBound(s, len, c, w);
    } else if c / len > 1.0 {
      assert p == 1.0;
      ClampEndBound(s, len, c, w);
    } else {
      InteriorBound(s, p, len, c, w);
    }
  }

  /** The worked examples for the segment from the origin to (10, 0, 0):
      distances 3, 5 and the square root of 41, squared. */
  lemma {:induction false} Examples()
    ensures PointToSegmentDistanceSq(Vec3(5.0, 3.0, 0.0), Zero, Vec3(10.0, 0.0, 0.0)) == 9.0
    ensures PointToSegmentDistanceSq(Vec3(-5.0, 0.0, 0.0), Zero, Vec3(10.0, 0.0, 0.0)) == 25.0
    ensures PointToSegmentDistanceSq(Vec3(15.0, 4.0, 0.0), Zero, Vec3(10.0, 0.0, 0.0)) == 41.0
  {
    var e := Vec3(10.0, 0.0, 0.0);
    assert NormSq(Sub(e, Zero)) == 100.0;
    assert Dot(Sub(Vec3(5.0, 3.0, 0.0), Zero), Sub(e, Zero)) == 50.0;
    assert Dot(Sub(Vec3(-5.0, 0.0, 0.0), Zero), Sub(e, Zero)) == -50.0;
    assert Dot(Sub(Vec3(15.0, 4.0, 0.0), Zero), Sub(e, Zero)) == 150.0;
  }
}
