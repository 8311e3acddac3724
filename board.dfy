/** Geometry of the dot grid: edge keys, the adjacency test, the four sides of a
    box, the boxes that `checkBoxes` probes around a new edge, and the position
    of a box in the flat `boxes` array. Everything here is pure. */
module Board {

  /** The canonical identity of an edge, as `getLineKey` spells it: the
      component-wise minimum of the two endpoints, then the component-wise
      maximum. */
  datatype LineKey = LineKey(minX: int, minY: int, maxX: int, maxY: int)

  function Min(a: int, b: int): int { if a <= b then a else b }

  function Max(a: int, b: int): int { if a <= b then b else a }

  function Abs(n: int): nat { if n < 0 then -n else n }

  /** The key is the endpoints' coordinates sorted axis by axis. */
  function GetLineKey(x1: int, y1: int, x2: int, y2: int): (k: LineKey)
    ensures k.minX <= k.maxX && k.minY <= k.maxY
    ensures {k.minX, k.maxX} == {x1, x2} && {k.minY, k.maxY} == {y1, y2}
  {
    LineKey(Min(x1, x2), Min(y1, y2), Max(x1, x2), Max(y1, y2))
  }

  lemma LineKeyOrderIndependent(x1: int, y1: int, x2: int, y2: int)
    ensures GetLineKey(x1, y1, x2, y2) == GetLineKey(x2, y2, x1, y1)
  {}

  /** The two dots are neighbours: exactly one coordinate differs, by one. */
  predicate IsValidLine(x1: int, y1: int, x2: int, y2: int)
  {
    var dx := Abs(x2 - x1);
    var dy := Abs(y2 - y1);
    (dx == 1 && dy == 0) || (dx == 0 && dy == 1)
  }

  lemma ValidLineShape(x1: int, y1: int, x2: int, y2: int)
    ensures IsValidLine(x1, y1, x2, y2) <==>
      || (y1 == y2 && (x2 == x1 + 1 || x2 == x1 - 1))
      || (x1 == x2 && (y2 == y1 + 1 || y2 == y1 - 1))
    ensures IsValidLine(x1, y1, x2, y2) == IsValidLine(x2, y2, x1, y1)
    ensures !IsValidLine(x1, y1, x1, y1)
  {}

  /** On valid lines the key identifies the unordered pair of endpoints. */
  lemma LineKeyIdentifiesLine(x1: int, y1: int, x2: int, y2: int,
                              u1: int, v1: int, u2: int, v2: int)
    requires IsValidLine(x1, y1, x2, y2) && IsValidLine(u1, v1, u2, v2)
    ensures GetLineKey(x1, y1, x2, y2) == GetLineKey(u1, v1, u2, v2) <==>
      || ((x1, y1) == (u1, v1) && (x2, y2) == (u2, v2))
      || ((x1, y1) == (u2, v2) && (x2, y2) == (u1, v1))
  {
    ValidLineShape(x1, y1, x2, y2);
    ValidLineShape(u1, v1, u2, v2);
  }

  /** Because the key sorts each axis separately, the two diagonals of a unit
      square share a key; only valid lines ever reach `getLineKey`. */
  lemma DiagonalKeysCollide()
    ensures GetLineKey(0, 1, 1, 0) == GetLineKey(0, 0, 1, 1)
    ensures !IsValidLine(0, 1, 1, 0) && !IsValidLine(0, 0, 1, 1)
  {}

  predicate OnGrid(size: int, x: int, y: int)
  {
    0 <= x < size && 0 <= y < size
  }

  /** A key of length one along one axis. */
  predicate IsUnitKey(k: LineKey)
  {
    || (k.maxX == k.minX + 1 && k.maxY == k.minY)
    || (k.maxX == k.minX && k.maxY == k.minY + 1)
  }

  predicate IsHorizontal(k: LineKey)
  {
    k.minY == k.maxY
  }

  /** A key of an edge between two dots of a `size` by `size` grid. */
  predicate IsGridLine(size: int, k: LineKey)
  {
    && 0 <= k.minX && 0 <= k.minY && k.maxX < size && k.maxY < size
    && IsUnitKey(k)
  }

  /** For dots of the grid, the line is valid exactly when its key is a grid edge. */
  lemma GridLineKeys(size: int, x1: int, y1: int, x2: int, y2: int)
    requires OnGrid(size, x1, y1) && OnGrid(size, x2, y2)
    ensures IsValidLine(x1, y1, x2, y2) <==> IsGridLine(size, GetLineKey(x1, y1, x2, y2))
  {
    ValidLineShape(x1, y1, x2, y2);
  }

  /** The four sides of the box whose top-left dot is (x, y). */
  function BoxSides(x: int, y: int): set<LineKey>
  {
    { GetLineKey(x, y, x + 1, y),          // top
      GetLineKey(x + 1, y, x + 1, y + 1),  // right
      GetLineKey(x, y + 1, x + 1, y + 1),  // bottom
      GetLineKey(x, y, x, y + 1) }         // left
  }

  /** All four sides of the box (x, y) are among the claimed lines. */
  predicate IsBoxComplete(lines: set<LineKey>, x: int, y: int)
  {
    && GetLineKey(x, y, x + 1, y) in lines
    && GetLineKey(x + 1, y, x + 1, y + 1) in lines
    && GetLineKey(x, y + 1, x + 1, y + 1) in lines
    && GetLineKey(x, y, x, y + 1) in lines
  }

  lemma BoxSidesShape(size: int, lines: set<LineKey>, x: int, y: int)
    requires 0 <= x < size - 1 && 0 <= y < size - 1
    ensures forall k :: k in BoxSides(x, y) ==> IsGridLine(size, k)
    ensures IsBoxComplete(lines, x, y) <==> BoxSides(x, y) <= lines
  {}

  /** A unit edge borders exactly two boxes: the ones above and below it when
      it is horizontal, the ones left and right of it when it is vertical. */
  lemma BorderingBoxes(k: LineKey, col: int, row: int)
    requires IsUnitKey(k)
    ensures k in BoxSides(col, row) <==>
      if IsHorizontal(k) then col == k.minX && (row == k.minY - 1 || row == k.minY)
      else row == k.minY && (col == k.minX - 1 || col == k.minX)
  {}

  /** The probe directions of `checkBoxes`, in order: above, below, left, right. */
  const Directions: seq<(int, int)> := [(0, -1), (0, 1), (-1, 0), (1, 0)]

  /** The box `checkBoxes` probes for direction d: the edge's minimum corner,
      moved by d's negative components only. */
  function ProbeBox(x1: int, y1: int, x2: int, y2: int, d: (int, int)): (int, int)
  {
    (Min(x1, x2) + (if d.0 < 0 then d.0 else 0), Min(y1, y2) + (if d.1 < 0 then d.1 else 0))
  }

  /** The probes of a valid line: the "below" and "right" probes are the same
      box, one probe is not next to the line at all (the left one for a
      horizontal line, the upper one for a vertical line), and the other two
      are exactly the two boxes the line borders. */
  lemma ProbeLayout(x1: int, y1: int, x2: int, y2: int)
    requires IsValidLine(x1, y1, x2, y2)
    ensures ProbeBox(x1, y1, x2, y2, Directions[1]) == ProbeBox(x1, y1, x2, y2, Directions[3])
    ensures var k := GetLineKey(x1, y1, x2, y2);
      var p0 := ProbeBox(x1, y1, x2, y2, Directions[0]);
      var p1 := ProbeBox(x1, y1, x2, y2, Directions[1]);
      var p2 := ProbeBox(x1, y1, x2, y2, Directions[2]);
      if IsHorizontal(k) then
        k in BoxSides(p0.0, p0.1) && k in BoxSides(p1.0, p1.1) && k !in BoxSides(p2.0, p2.1)
      else
        k !in BoxSides(p0.0, p0.1) && k in BoxSides(p1.0, p1.1) && k in BoxSides(p2.0, p2.1)
  {
    ValidLineShape(x1, y1, x2, y2);
    var k := GetLineKey(x1, y1, x2, y2);
    var p0 := ProbeBox(x1, y1, x2, y2, Directions[0]);
    var p1 := ProbeBox(x1, y1, x2, y2, Directions[1]);
    var p2 := ProbeBox(x1, y1, x2, y2, Directions[2]);
    BorderingBoxes(k, p0.0, p0.1);
    BorderingBoxes(k, p1.0, p1.1);
    BorderingBoxes(k, p2.0, p2.1);
  }

  /** Every box the line borders is one of the probed boxes. */
  lemma ProbesCoverBorderingBoxes(x1: int, y1: int, x2: int, y2: int, col: int, row: int)
    requires IsValidLine(x1, y1, x2, y2)
    requires GetLineKey(x1, y1, x2, y2) in BoxSides(col, row)
    ensures || (col, row) == ProbeBox(x1, y1, x2, y2, Directions[0])
            || (col, row) == ProbeBox(x1, y1, x2, y2, Directions[1])
            || (col, row) == ProbeBox(x1, y1, x2, y2, Directions[2])
  {
    ValidLineShape(x1, y1, x2, y2);
    BorderingBoxes(GetLineKey(x1, y1, x2, y2), col, row);
  }

  /** Position of box (col, row) in the row-major `boxes` array of a board w boxes wide. */
  function BoxIndex(w: int, col: int, row: int): int
  {
    row * w + col
  }

  lemma MulLeft(a: int, b: int, c: int)
    requires 0 <= c && a <= b
    ensures a * c <= b * c
  {}

  lemma BoxIndexInRange(w: int, col: int, row: int)
    requires 0 <= col < w && 0 <= row < w
    ensures 0 <= BoxIndex(w, col, row) < w * w
  {
    MulLeft(0, row, w);
    MulLeft(row + 1, w, w);
  }

  /** Distinct boxes sit at distinct positions. */
  lemma BoxIndexInjective(w: int, col: int, row: int, col2: int, row2: int)
    requires 0 <= col < w && 0 <= row < w && 0 <= col2 < w && 0 <= row2 < w
    ensures BoxIndex(w, col, row) == BoxIndex(w, col2, row2) ==> col == col2 && row == row2
  {
    if row < row2 {
      MulLeft(row + 1, row2, w);
    } else if row2 < row {
      MulLeft(row2 + 1, row, w);
    }
  }

  /** Every position of the array is the position of exactly one box. */
  lemma BoxAtIndex(w: int, i: int)
    requires 0 < w && 0 <= i < w * w
    ensures 0 <= i % w < w && 0 <= i / w < w
    ensures BoxIndex(w, i % w, i / w) == i
  {
    if i / w >= w {
      MulLeft(w, i / w, w);
      assert false;
    }
  }
}
