/**
 * FGyroAxisPoint and the point-pattern generators of UAriaAbilitySystemLibrary. Every
 * generator appends points to an out array it is handed; the model fixes how many points are
 * appended and in which order. Straight lines are computed exactly; positions the code
 * derives from rotation matrices, sines and cosines are read from a `place` function giving
 * the position the code computes for a corner, an edge step, a ring step or a grid cell.
 */
module GyroAxisPoints {
  import opened UnrealMath

  /** FGyroAxisPoint. */
  datatype GyroAxisPoint = GyroAxisPoint(position: Vec, rotation: Rotator)
  {
    /** operator<: the nearer position to the world origin is the smaller point. */
    predicate Less(other: GyroAxisPoint)
    {
      SizeSquared(position) < SizeSquared(other.position)
    }
  }

  /** The default constructor: zero position and zero rotation. */
  const DefaultGyroAxisPoint := GyroAxisPoint(ZeroVector, ZeroRotator)

  lemma LessIrreflexive(p: GyroAxisPoint)
    ensures !p.Less(p)
  {
  }

  lemma LessTransitive(p: GyroAxisPoint, q: GyroAxisPoint, s: GyroAxisPoint)
    requires p.Less(q) && q.Less(s)
    ensures p.Less(s)
  {
  }

  /** No point is smaller than the default point. */
  lemma DefaultIsLeast(p: GyroAxisPoint)
    ensures !p.Less(DefaultGyroAxisPoint)
  {
  }

  // ---------------------------------------------------------------------------------------
  // Straight lines: CreateGyroAxisPtDirectioned and CreateGyroAxisPtCross.
  // ---------------------------------------------------------------------------------------

  /** Point i of a line: the origin moved i * DistanceBetweenPoints along the direction. */
  function LinePoint(pointOriginLoc: Vec, forwardDirection: Vec, distanceBetweenPoints: real, i: int): GyroAxisPoint
  {
    GyroAxisPoint(VAdd(pointOriginLoc, VScale(VScale(forwardDirection, distanceBetweenPoints), i as real)), ZeroRotator)
  }

  /** The first n points of a line, or none for n <= 0. */
  function LinePoints(pointOriginLoc: Vec, forwardDirection: Vec, n: int, distanceBetweenPoints: real): seq<GyroAxisPoint>
  {
    if n <= 0 then [] else seq(n, i => LinePoint(pointOriginLoc, forwardDirection, distanceBetweenPoints, i))
  }

  /** A line holds max(N, 0) points, point i at offset i * distance along the direction. */
  lemma LinePointsAreSpaced(pointOriginLoc: Vec, forwardDirection: Vec, n: int, distanceBetweenPoints: real)
    ensures |LinePoints(pointOriginLoc, forwardDirection, n, distanceBetweenPoints)| == if n <= 0 then 0 else n
    ensures forall i :: 0 <= i < |LinePoints(pointOriginLoc, forwardDirection, n, distanceBetweenPoints)| ==>
              LinePoints(pointOriginLoc, forwardDirection, n, distanceBetweenPoints)[i].position
              == VAdd(pointOriginLoc, VScale(forwardDirection, distanceBetweenPoints * (i as real)))
  {
    var r := LinePoints(pointOriginLoc, forwardDirection, n, distanceBetweenPoints);
    forall i | 0 <= i < |r|
      ensures r[i].position == VAdd(pointOriginLoc, VScale(forwardDirection, distanceBetweenPoints * (i as real)))
    {
      var k := i as real;
      assert forwardDirection.x * distanceBetweenPoints * k == forwardDirection.x * (distanceBetweenPoints * k);
      assert forwardDirection.y * distanceBetweenPoints * k == forwardDirection.y * (distanceBetweenPoints * k);
      assert forwardDirection.z * distanceBetweenPoints * k == forwardDirection.z * (distanceBetweenPoints * k);
    }
  }

  /** CreateGyroAxisPtDirectioned: N points along the direction, appended to the out array. */
  method CreateGyroAxisPtDirectioned(pointOriginLoc: Vec, forwardDirection: Vec, numPoints: int, distanceBetweenPoints: real,
                                     outGyroDirectionedPts: seq<GyroAxisPoint>)
    returns (result: seq<GyroAxisPoint>)
    ensures result == outGyroDirectionedPts + LinePoints(pointOriginLoc, forwardDirection, numPoints, distanceBetweenPoints)
  {
    result := outGyroDirectionedPts;
    if numPoints <= 0 {
      assert LinePoints(pointOriginLoc, forwardDirection, numPoints, distanceBetweenPoints) == [];
      return;
    }
    for i := 0 to numPoints
      invariant result == outGyroDirectionedPts + LinePoints(pointOriginLoc, forwardDirection, i, distanceBetweenPoints)
    {
      var offset := VScale(VScale(forwardDirection, distanceBetweenPoints), i as real);
      var newPointPosition := VAdd(pointOriginLoc, offset);
      var gyroLinePt := GyroAxisPoint(newPointPosition, ZeroRotator);
      assert LinePoints(pointOriginLoc, forwardDirection, i + 1, distanceBetweenPoints)
          == LinePoints(pointOriginLoc, forwardDirection, i, distanceBetweenPoints) + [gyroLinePt];
      result := result + [gyroLinePt];
    }
  }

  /** The lines of the first k cross directions, each starting PointSrcDirectionalOffset out along its direction. */
  function CrossLines(pointOriginLoc: Vec, numPoints: int, distanceBetweenPoints: real, pointSrcDirectionalOffset: real,
                      directionAt: int -> Vec, k: nat): seq<GyroAxisPoint>
  {
    if k == 0 then []
    else
      var direction := directionAt(k - 1);
      CrossLines(pointOriginLoc, numPoints, distanceBetweenPoints, pointSrcDirectionalOffset, directionAt, k - 1)
      + LinePoints(VAdd(pointOriginLoc, VScale(direction, pointSrcDirectionalOffset)), direction, numPoints, distanceBetweenPoints)
  }

  /** What CreateGyroAxisPtCross appends. */
  function CrossPoints(pointOriginLoc: Vec, numPoints: int, distanceBetweenPoints: real, totalCrossDirections: int,
                       pointSrcDirectionalOffset: real, directionAt: int -> Vec): seq<GyroAxisPoint>
  {
    if numPoints <= 0 || totalCrossDirections <= 0 then []
    else CrossLines(pointOriginLoc, numPoints, distanceBetweenPoints, pointSrcDirectionalOffset, directionAt, totalCrossDirections)
  }

  /** k lines of N points each. */
  lemma {:induction false} CrossLinesCount(pointOriginLoc: Vec, numPoints: int, distanceBetweenPoints: real, pointSrcDirectionalOffset: real,
                                           directionAt: int -> Vec, k: nat)
    requires numPoints > 0
    ensures |CrossLines(pointOriginLoc, numPoints, distanceBetweenPoints, pointSrcDirectionalOffset, directionAt, k)| == k * numPoints
  {
    if k > 0 {
      CrossLinesCount(pointOriginLoc, numPoints, distanceBetweenPoints, pointSrcDirectionalOffset, directionAt, k - 1);
      var direction := directionAt(k - 1);
      LinePointsAreSpaced(VAdd(pointOriginLoc, VScale(direction, pointSrcDirectionalOffset)), direction, numPoints, distanceBetweenPoints);
      assert (k - 1) * numPoints + numPoints == k * numPoints;
    }
  }

  /** Cross appends TotalCrossDirections * N points, and none when either is not positive. */
  lemma CrossCount(pointOriginLoc: Vec, numPoints: int, distanceBetweenPoints: real, totalCrossDirections: int,
                   pointSrcDirectionalOffset: real, directionAt: int -> Vec)
    ensures |CrossPoints(pointOriginLoc, numPoints, distanceBetweenPoints, totalCrossDirections, pointSrcDirectionalOffset, directionAt)|
            == if numPoints <= 0 || totalCrossDirections <= 0 then 0 else totalCrossDirections * numPoints
  {
    if numPoints > 0 && totalCrossDirections > 0 {
      CrossLinesCount(pointOriginLoc, numPoints, distanceBetweenPoints, pointSrcDirectionalOffset, directionAt, totalCrossDirections);
    }
  }

  /**
   * CreateGyroAxisPtCross: for each of TotalCrossDirections directions (the forward direction
   * turned by 360 / TotalCrossDirections degrees per step, given here as directionAt), a
   * directioned line from the origin pushed out along that direction.
   */
  method CreateGyroAxisPtCross(pointOriginLoc: Vec, numPoints: int, distanceBetweenPoints: real, totalCrossDirections: int,
                               pointSrcDirectionalOffset: real, directionAt: int -> Vec, outGyroCrossPts: seq<GyroAxisPoint>)
    returns (result: seq<GyroAxisPoint>)
    ensures result == outGyroCrossPts
      + CrossPoints(pointOriginLoc, numPoints, distanceBetweenPoints, totalCrossDirections, pointSrcDirectionalOffset, directionAt)
  {
    result := outGyroCrossPts;
    if numPoints <= 0 || totalCrossDirections <= 0 {
      return;
    }
    for i := 0 to totalCrossDirections
      invariant result == outGyroCrossPts
        + CrossLines(pointOriginLoc, numPoints, distanceBetweenPoints, pointSrcDirectionalOffset, directionAt, i)
    {
      var direction := directionAt(i);
      var adjustedOriginLocation := VAdd(pointOriginLoc, VScale(direction, pointSrcDirectionalOffset));
      var outGyroXDirectionedPts := CreateGyroAxisPtDirectioned(adjustedOriginLocation, direction, numPoints, distanceBetweenPoints, []);
      ghost var lines := CrossLines(pointOriginLoc, numPoints, distanceBetweenPoints, pointSrcDirectionalOffset, directionAt, i);
      ghost var line := LinePoints(adjustedOriginLocation, direction, numPoints, distanceBetweenPoints);
      assert outGyroXDirectionedPts == line;
      result := result + outGyroXDirectionedPts;
      AppendTwo(outGyroCrossPts, lines, line);
      assert CrossLines(pointOriginLoc, numPoints, distanceBetweenPoints, pointSrcDirectionalOffset, directionAt, i + 1) == lines + line;
    }
  }

  // ---------------------------------------------------------------------------------------
  // Shapes: GenerateGyroPtSquareShape, GenerateGyroPtCircleShape, GenerateGyroPtComplexShape
  // and CreateGyroAxisPtGrid.
  // ---------------------------------------------------------------------------------------

  /** Where in a shape a point is computed from. */
  datatype PointSlot =
    | Corner(index: int)            // a square corner
    | Edge(index: int, step: int)   // step `step` along the edge that starts at corner or vertex `index`
    | Ring(index: int)              // point `index` of a circle
    | Cell(row: int, column: int)   // the grid cell at (row, column) from the centre

  /** The point the code adds for a slot: at the position it computes for it, with zero rotation. */
  function SlotPoint(place: PointSlot -> Vec, slot: PointSlot): GyroAxisPoint
  {
    GyroAxisPoint(place(slot), ZeroRotator)
  }

  /** Steps from..till-1 along edge `index`. */
  function EdgeSteps(place: PointSlot -> Vec, index: int, from: int, till: int): (r: seq<GyroAxisPoint>)
    ensures |r| == if till <= from then 0 else till - from
    decreases till - from
  {
    if till <= from then [] else EdgeSteps(place, index, from, till - 1) + [SlotPoint(place, Edge(index, till - 1))]
  }

  /** Points placed on square edge i beyond the corners: (N-4)/4, plus one on the first (N-4)%4 edges. */
  function SquarePointsToPlace(numPoints: int, i: int): int
    requires numPoints > 4
  {
    DivTrunc(numPoints - 4, 4) + (if i < RemTrunc(numPoints - 4, 4) then 1 else 0)
  }

  /** The points of the first k edges of a square of more than four points. */
  function SquareEdges(place: PointSlot -> Vec, numPoints: int, k: nat): seq<GyroAxisPoint>
    requires numPoints > 4
  {
    if k == 0 then []
    else
      var i := k - 1;
      SquareEdges(place, numPoints, k - 1)
      + (if i != 0 then [SlotPoint(place, Corner(i))] else [])
      + EdgeSteps(place, i, 1, SquarePointsToPlace(numPoints, i) + 1)
  }

  /** What GenerateGyroPtSquareShape appends. */
  function SquarePoints(place: PointSlot -> Vec, numPoints: int): seq<GyroAxisPoint>
  {
    if numPoints < 4 then []
    else if numPoints == 4 then
      [SlotPoint(place, Corner(0)), SlotPoint(place, Corner(1)), SlotPoint(place, Corner(2)), SlotPoint(place, Corner(3))]
    else SquareEdges(place, numPoints, 4) + [SlotPoint(place, Corner(0))]
  }

  /** Square emits nothing for N < 4 and exactly N points for N >= 4. */
  lemma SquareCount(place: PointSlot -> Vec, numPoints: int)
    ensures |SquarePoints(place, numPoints)| == if numPoints < 4 then 0 else numPoints
  {
    if numPoints > 4 {
      var q := DivTrunc(numPoints - 4, 4);
      var e := RemTrunc(numPoints - 4, 4);
      assert 0 <= e < 4 && numPoints - 4 == q * 4 + e;
      assert |SquareEdges(place, numPoints, 1)| == SquarePointsToPlace(numPoints, 0);
      assert |SquareEdges(place, numPoints, 2)| == 1 + SquarePointsToPlace(numPoints, 0) + SquarePointsToPlace(numPoints, 1);
      assert |SquareEdges(place, numPoints, 3)| == 2 + SquarePointsToPlace(numPoints, 0) + SquarePointsToPlace(numPoints, 1)
                                                  + SquarePointsToPlace(numPoints, 2);
    }
  }

  /** An inner loop over one edge: the steps first..last, in order. */
  method AddEdgeSteps(place: PointSlot -> Vec, index: int, first: int, last: int, out: seq<GyroAxisPoint>)
    returns (result: seq<GyroAxisPoint>)
    ensures result == out + EdgeSteps(place, index, first, last + 1)
  {
    result := out;
    if last < first {
      return;
    }
    for j := first to last + 1
      invariant result == out + EdgeSteps(place, index, first, j)
    {
      result := result + [SlotPoint(place, Edge(index, j))];
    }
  }

  /** GenerateGyroPtSquareShape: the four corners, or corners with points spread along the edges. */
  method GenerateGyroPtSquareShape(place: PointSlot -> Vec, numPoints: int, outGyroSquarePts: seq<GyroAxisPoint>)
    returns (result: seq<GyroAxisPoint>)
    ensures result == outGyroSquarePts + SquarePoints(place, numPoints)
  {
    result := outGyroSquarePts;
    if numPoints < 4 {
      return;
    }
    if numPoints == 4 {
      for c := 0 to 4
        invariant result == outGyroSquarePts + SquarePoints(place, 4)[..c]
      {
        result := result + [SlotPoint(place, Corner(c))];
      }
      return;
    }
    result := AddSquareEdges(place, numPoints, result);
    result := result + [SlotPoint(place, Corner(0))];
  }

  /** The edge loop of GenerateGyroPtSquareShape for more than four points. */
  method AddSquareEdges(place: PointSlot -> Vec, numPoints: int, out: seq<GyroAxisPoint>)
    returns (result: seq<GyroAxisPoint>)
    requires numPoints > 4
    ensures result == out + SquareEdges(place, numPoints, 4)
  {
    result := out;
    var pointsPerEdge := DivTrunc(numPoints - 4, 4);
    var extraPoints := RemTrunc(numPoints - 4, 4);
    for i := 0 to 4
      invariant result == out + SquareEdges(place, numPoints, i)
    {
      ghost var corner: seq<GyroAxisPoint> := if i != 0 then [SlotPoint(place, Corner(i))] else [];
      if i != 0 {
        result := result + [SlotPoint(place, Corner(i))];
      }
      assert result == out + SquareEdges(place, numPoints, i) + corner;
      var pointsToPlace := pointsPerEdge + (if i < extraPoints then 1 else 0);
      assert pointsToPlace == SquarePointsToPlace(numPoints, i);
      result := AddEdgeSteps(place, i, 1, pointsToPlace, result);
      assert SquareEdges(place, numPoints, i + 1) == SquareEdges(place, numPoints, i) + corner + EdgeSteps(place, i, 1, pointsToPlace + 1);
      AppendThree(out, SquareEdges(place, numPoints, i), corner, EdgeSteps(place, i, 1, pointsToPlace + 1));
    }
  }

  /** Appending two pieces one after another is appending their concatenation. */
  lemma AppendTwo<A>(s: seq<A>, a: seq<A>, b: seq<A>)
    ensures s + a + b == s + (a + b)
  {
  }

  /** Appending three pieces one after another is appending their concatenation. */
  lemma AppendThree<A>(s: seq<A>, a: seq<A>, b: seq<A>, c: seq<A>)
    ensures s + a + b + c == s + (a + b + c)
  {
  }

  /** What GenerateGyroPtCircleShape appends: N ring points, or none for N < 3. */
  function CirclePoints(place: PointSlot -> Vec, numPoints: int): seq<GyroAxisPoint>
  {
    if numPoints < 3 then [] else seq(numPoints, i => SlotPoint(place, Ring(i)))
  }

  /** GenerateGyroPtCircleShape: N points at equal angle steps round the circle. */
  method GenerateGyroPtCircleShape(place: PointSlot -> Vec, numPoints: int, outGyroCirclePts: seq<GyroAxisPoint>)
    returns (result: seq<GyroAxisPoint>)
    ensures result == outGyroCirclePts + CirclePoints(place, numPoints)
    ensures |result| == |outGyroCirclePts| + (if numPoints < 3 then 0 else numPoints)
  {
    result := outGyroCirclePts;
    if numPoints < 3 {
      return;
    }
    for i := 0 to numPoints
      invariant result == outGyroCirclePts + CirclePoints(place, numPoints)[..i]
    {
      result := result + [SlotPoint(place, Ring(i))];
    }
  }

  /** The vertex count GenerateGyroPtComplexShape uses: 3 stays, an odd count is raised to even. */
  function AdjustedVertexCount(numShapeVertices: int): (v: int)
    ensures numShapeVertices == 3 ==> v == 3
    ensures numShapeVertices != 3 ==> v % 2 == 0 && (v == numShapeVertices || v == numShapeVertices + 1)
    ensures numShapeVertices != 3 && numShapeVertices % 2 == 0 ==> v == numShapeVertices
  {
    if numShapeVertices != 3 then
      (if RemTrunc(numShapeVertices, 2) == 0 then numShapeVertices else numShapeVertices + 1)
    else numShapeVertices
  }

  /** Points on each segment besides the optional extra one: max(N / V - 1, 0) + 1, counting the start vertex. */
  function PointsPerSegment(numPoints: int, vertices: int): int
    requires vertices != 0
  {
    MaxI(DivTrunc(numPoints, vertices) - 1, 0)
  }

  function MaxI(a: int, b: int): int { if a >= b then a else b }

  /** The points of the first k segments; an extra point goes on the first `remaining` of them. */
  function ComplexSegments(place: PointSlot -> Vec, perSegment: int, remaining: int, k: nat): seq<GyroAxisPoint>
  {
    if k == 0 then []
    else
      var i := k - 1;
      ComplexSegments(place, perSegment, remaining, k - 1)
      + EdgeSteps(place, i, 0, perSegment + 1)
      + (if remaining - i > 0 then [SlotPoint(place, Edge(i, perSegment + 1))] else [])
  }

  /** What GenerateGyroPtComplexShape appends. */
  function ComplexShapePoints(place: PointSlot -> Vec, numShapeVertices: int, numPoints: int): seq<GyroAxisPoint>
    requires numPoints < 3 || AdjustedVertexCount(numShapeVertices) != 0
  {
    if numPoints < 3 then []
    else
      var v := AdjustedVertexCount(numShapeVertices);
      if v <= 0 then []
      else ComplexSegments(place, PointsPerSegment(numPoints, v), RemTrunc(numPoints, v), v)
  }

  lemma {:induction false} ComplexSegmentsCount(place: PointSlot -> Vec, perSegment: int, remaining: int, k: nat)
    requires perSegment >= 0 && 0 <= remaining
    ensures |ComplexSegments(place, perSegment, remaining, k)| == k * (perSegment + 1) + (if remaining < k then remaining else k)
  {
    if k > 0 {
      ComplexSegmentsCount(place, perSegment, remaining, k - 1);
      assert (k - 1) * (perSegment + 1) + perSegment + 1 == k * (perSegment + 1);
    }
  }

  /**
   * With V the adjusted vertex count: exactly N points when N >= V, and V + N points when
   * 3 <= N < V.
   */
  lemma ComplexShapeCount(place: PointSlot -> Vec, numShapeVertices: int, numPoints: int)
    requires numPoints >= 3 && AdjustedVertexCount(numShapeVertices) > 0
    ensures var v := AdjustedVertexCount(numShapeVertices);
      |ComplexShapePoints(place, numShapeVertices, numPoints)| == if numPoints >= v then numPoints else v + numPoints
  {
    var v := AdjustedVertexCount(numShapeVertices);
    var q := numPoints / v;
    var rem := numPoints % v;
    assert DivTrunc(numPoints, v) == q && RemTrunc(numPoints, v) == rem;
    DivisionBounds(numPoints, v);
    ComplexSegmentsCount(place, PointsPerSegment(numPoints, v), rem, v);
    if numPoints >= v {
      assert PointsPerSegment(numPoints, v) + 1 == q;
      assert v * q + rem == numPoints;
    } else {
      assert PointsPerSegment(numPoints, v) == 0;
    }
  }

  /** Quotient and remainder of a non-negative count by a positive one. */
  lemma DivisionBounds(n: int, v: int)
    requires n >= 0 && v > 0
    ensures 0 <= n % v < v && n == v * (n / v) + n % v
    ensures n >= v ==> n / v >= 1
    ensures n < v ==> n / v == 0 && n % v == n
  {
    var q := n / v;
    if q >= 1 {
      MultipleAtLeast(v, q);
    }
  }

  lemma {:induction false} MultipleAtLeast(v: int, q: int)
    requires v > 0 && q >= 1
    ensures v * q >= v
  {
    if q > 1 {
      MultipleAtLeast(v, q - 1);
      assert v * q == v * (q - 1) + v;
    }
  }

  /** The segment loop of GenerateGyroPtComplexShape, with the RemainingPoints countdown. */
  method AddComplexSegments(place: PointSlot -> Vec, vertices: int, perSegment: int, remainingPoints: int, out: seq<GyroAxisPoint>)
    returns (result: seq<GyroAxisPoint>)
    requires vertices > 0
    ensures result == out + ComplexSegments(place, perSegment, remainingPoints, vertices)
  {
    result := out;
    var remaining := remainingPoints;
    for i := 0 to vertices
      invariant result == out + ComplexSegments(place, perSegment, remainingPoints, i)
      invariant remaining > 0 <==> remainingPoints - i > 0
      invariant remaining > 0 ==> remaining == remainingPoints - i
    {
      ghost var before := result;
      result := AddEdgeSteps(place, i, 0, perSegment, result);
      ghost var extra: seq<GyroAxisPoint> := if remainingPoints - i > 0 then [SlotPoint(place, Edge(i, perSegment + 1))] else [];
      if remaining > 0 {
        result := result + [SlotPoint(place, Edge(i, perSegment + 1))];
        remaining := remaining - 1;
      }
      assert result == before + EdgeSteps(place, i, 0, perSegment + 1) + extra;
      AppendThree(out, ComplexSegments(place, perSegment, remainingPoints, i), EdgeSteps(place, i, 0, perSegment + 1), extra);
      assert ComplexSegments(place, perSegment, remainingPoints, i + 1)
        == ComplexSegments(place, perSegment, remainingPoints, i) + EdgeSteps(place, i, 0, perSegment + 1) + extra;
    }
  }

  /**
   * GenerateGyroPtComplexShape: a triangle, or a star or diamond of an even vertex count, with
   * points spread over its segments. An adjusted vertex count of 0 would divide by zero, so the
   * code needs one of at least 1 (or fewer than 3 points).
   */
  method GenerateGyroPtComplexShape(place: PointSlot -> Vec, numShapeVertices: int, numPoints: int, outGyroCompShapePts: seq<GyroAxisPoint>)
    returns (result: seq<GyroAxisPoint>)
    requires numPoints < 3 || AdjustedVertexCount(numShapeVertices) != 0
    ensures result == outGyroCompShapePts + ComplexShapePoints(place, numShapeVertices, numPoints)
  {
    result := outGyroCompShapePts;
    if numPoints < 3 {
      return;
    }
    var vertices := numShapeVertices;
    if vertices != 3 {
      vertices := if RemTrunc(vertices, 2) == 0 then vertices else vertices + 1;
    }
    assert vertices == AdjustedVertexCount(numShapeVertices);
    var pointsPerSegment := MaxI(DivTrunc(numPoints, vertices) - 1, 0);
    var remainingPoints := RemTrunc(numPoints, vertices);
    if vertices > 0 {
      result := AddComplexSegments(place, vertices, pointsPerSegment, remainingPoints, result);
    }
  }

  /** FMath::CeilToInt(FMath::Sqrt(N)) over exact reals: the least g with g * g >= N. */
  function CeilSqrt(n: nat): (g: nat)
    ensures g * g >= n
    ensures g > 0 ==> (g - 1) * (g - 1) < n
  {
    CeilSqrtFrom(n, 0)
  }

  function CeilSqrtFrom(n: nat, g: nat): (r: nat)
    requires g == 0 || (g - 1) * (g - 1) < n
    ensures r * r >= n
    ensures r > 0 ==> (r - 1) * (r - 1) < n
    decreases n - g
  {
    if g * g >= n then g
    else
      assert g < n by {
        if g > 0 {
          assert g * g >= g;
        }
      }
      CeilSqrtFrom(n, g + 1)
  }

  /** Half the grid side: CeilSqrt(N), raised to odd, halved. */
  function GridHalfSize(numPoints: nat): (half: nat)
    ensures 2 * half + 1 >= CeilSqrt(numPoints)
    ensures (2 * half + 1) * (2 * half + 1) >= numPoints
  {
    var gridSize := CeilSqrt(numPoints);
    var half := (if gridSize % 2 == 0 then gridSize + 1 else gridSize) / 2;
    SquareMonotone(gridSize, 2 * half + 1);
    half
  }

  lemma SquareMonotone(a: nat, b: nat)
    requires a <= b
    ensures a * a <= b * b
  {
    assert a * a <= a * b;
  }

  /**
   * The nested loops of CreateGyroAxisPtGrid from cell (i, j) on, row by row over
   * -half..half, adding each cell and stopping as soon as the array holds N entries.
   */
  function GridWalk(place: PointSlot -> Vec, half: int, i: int, j: int, acc: seq<GyroAxisPoint>, numPoints: int): seq<GyroAxisPoint>
    requires 0 <= half && -half <= i && -half <= j <= half + 1
    decreases half - i, half + 1 - j
  {
    if i > half then acc
    else if j > half then GridWalk(place, half, i + 1, -half, acc, numPoints)
    else
      var next := acc + [SlotPoint(place, Cell(i, j))];
      if |next| >= numPoints then next else GridWalk(place, half, i, j + 1, next, numPoints)
  }

  /** What CreateGyroAxisPtGrid leaves in the out array. */
  function GridPoints(place: PointSlot -> Vec, numPoints: int, outGyroGridPts: seq<GyroAxisPoint>): seq<GyroAxisPoint>
  {
    if numPoints < 9 then outGyroGridPts
    else
      var half: int := GridHalfSize(numPoints);
      GridWalk(place, half, -half, -half, outGyroGridPts, numPoints)
  }

  /** Cells left from (i, j) on: the rest of row i and every later row. */
  function CellsLeft(half: int, i: int, j: int): int
  {
    (half - i) * (2 * half + 1) + (half + 1 - j)
  }

  /**
   * From a cell with enough cells left to reach N, the walk keeps what it had and ends with
   * max(N, held + 1) entries.
   */
  lemma {:induction false} GridWalkCount(place: PointSlot -> Vec, half: int, i: int, j: int, acc: seq<GyroAxisPoint>, numPoints: int)
    requires 0 <= half && -half <= i <= half && -half <= j <= half + 1
    requires CellsLeft(half, i, j) >= 1 && |acc| + CellsLeft(half, i, j) >= numPoints
    ensures |GridWalk(place, half, i, j, acc, numPoints)| == if |acc| + 1 >= numPoints then |acc| + 1 else numPoints
    ensures GridWalk(place, half, i, j, acc, numPoints)[..|acc|] == acc
    decreases half - i, half + 1 - j
  {
    var side := 2 * half + 1;
    if j > half {
      assert CellsLeft(half, i, j) == (half - i) * side;
      assert i < half;
      assert CellsLeft(half, i + 1, -half) == (half - i - 1) * side + side;
      assert (half - i - 1) * side + side == (half - i) * side;
      GridWalkCount(place, half, i + 1, -half, acc, numPoints);
    } else {
      var next := acc + [SlotPoint(place, Cell(i, j))];
      if |next| < numPoints {
        assert CellsLeft(half, i, j + 1) == CellsLeft(half, i, j) - 1;
        GridWalkCount(place, half, i, j + 1, next, numPoints);
        assert next[..|acc|] == acc;
        assert GridWalk(place, half, i, j + 1, next, numPoints)[..|acc|] == GridWalk(place, half, i, j + 1, next, numPoints)[..|next|][..|acc|];
      } else {
        assert next[..|acc|] == acc;
      }
    }
  }

  /** From the first cell, the whole odd-sided grid is left. */
  lemma CellsLeftAtStart(half: int)
    requires half >= 0
    ensures CellsLeft(half, -half, -half) == (2 * half + 1) * (2 * half + 1)
  {
    var side := 2 * half + 1;
    assert CellsLeft(half, -half, -half) == (2 * half) * side + side;
  }

  /**
   * Grid leaves the out array alone for N < 9; otherwise it keeps the array's entries and adds
   * grid points until it holds N entries, and at least one point.
   */
  lemma GridCount(place: PointSlot -> Vec, numPoints: int, outGyroGridPts: seq<GyroAxisPoint>)
    ensures |GridPoints(place, numPoints, outGyroGridPts)| == if numPoints < 9 then |outGyroGridPts|
              else if |outGyroGridPts| + 1 >= numPoints then |outGyroGridPts| + 1 else numPoints
    ensures GridPoints(place, numPoints, outGyroGridPts)[..|outGyroGridPts|] == outGyroGridPts
  {
    if numPoints >= 9 {
      var half: int := GridHalfSize(numPoints);
      CellsLeftAtStart(half);
      GridWalkCount(place, half, -half, -half, outGyroGridPts, numPoints);
    }
  }

  /**
   * CreateGyroAxisPtGrid: the cells of an odd-sided grid at least CeilSqrt(N) across, row by
   * row, stopping as soon as the out array holds N entries.
   */
  method CreateGyroAxisPtGrid(place: PointSlot -> Vec, numPoints: int, outGyroGridPts: seq<GyroAxisPoint>)
    returns (result: seq<GyroAxisPoint>)
    ensures result == GridPoints(place, numPoints, outGyroGridPts)
  {
    result := outGyroGridPts;
    if numPoints < 9 {
      return;
    }
    var gridSize := CeilSqrt(numPoints);
    if gridSize % 2 == 0 {
      gridSize := gridSize + 1;
    }
    var halfGridSize: int := gridSize / 2;
    assert halfGridSize == GridHalfSize(numPoints);
    var i: int := -halfGridSize;
    while i <= halfGridSize
      invariant -halfGridSize <= i <= halfGridSize + 1
      invariant GridWalk(place, halfGridSize, i, -halfGridSize, result, numPoints) == GridPoints(place, numPoints, outGyroGridPts)
      decreases halfGridSize - i
    {
      var j: int := -halfGridSize;
      while j <= halfGridSize
        invariant -halfGridSize <= j <= halfGridSize + 1
        invariant GridWalk(place, halfGridSize, i, j, result, numPoints) == GridPoints(place, numPoints, outGyroGridPts)
        decreases halfGridSize - j
      {
        result := result + [SlotPoint(place, Cell(i, j))];
        if |result| >= numPoints {
          return;
        }
        j := j + 1;
      }
      i := i + 1;
    }
  }

  // ---------------------------------------------------------------------------------------
  // CreateRotatorsSpread.
  // ---------------------------------------------------------------------------------------

  /**
   * What CreateRotatorsSpread returns: nothing for no points or a null world context; one
   * forward rotator for a single point; otherwise the rotations of the spread directions,
   * given as spreadRotationAt(i) for the direction turned DeltaSpread * i from the left edge.
   */
  function RotatorsSpread(hasWorldContext: bool, rotationPoints: int, forwardRotation: Rotator, spreadRotationAt: int -> Rotator): seq<Rotator>
  {
    if rotationPoints <= 0 || !hasWorldContext then []
    else if rotationPoints > 1 then seq(rotationPoints, i => spreadRotationAt(i))
    else [forwardRotation]
  }

  /** CreateRotatorsSpread returns max(RotationPoints, 0) rotators for a valid world context. */
  lemma RotatorsSpreadCount(hasWorldContext: bool, rotationPoints: int, forwardRotation: Rotator, spreadRotationAt: int -> Rotator)
    ensures |RotatorsSpread(hasWorldContext, rotationPoints, forwardRotation, spreadRotationAt)|
            == if rotationPoints <= 0 || !hasWorldContext then 0 else rotationPoints
  {
  }

  method CreateRotatorsSpread(hasWorldContext: bool, rotationPoints: int, forwardRotation: Rotator, spreadRotationAt: int -> Rotator)
    returns (rotators: seq<Rotator>)
    ensures rotators == RotatorsSpread(hasWorldContext, rotationPoints, forwardRotation, spreadRotationAt)
  {
    if rotationPoints <= 0 {
      return [];
    }
    if !hasWorldContext {
      return [];
    }
    rotators := [];
    if rotationPoints > 1 {
      for i := 0 to rotationPoints
        invariant rotators == seq(i, k => spreadRotationAt(k))
      {
        rotators := rotators + [spreadRotationAt(i)];
      }
    } else {
      rotators := rotators + [forwardRotation];
    }
  }
}
