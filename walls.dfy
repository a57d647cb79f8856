/**
 * The side walls of Area3D.show: for every edge of a detail's lower ring
 * (down_points, n points) the pass draws the quad up to the upper ring
 * (up_points, m points) as two triangles. Only the vertex indices are
 * modelled; the drawing calls are not.
 */
module Walls {

  /** A vertex reference: index into down_points or into up_points. */
  datatype Corner = Down(i: nat) | Up(i: nat)

  /**
   * The six vertices drawn for edge i: triangles (d[i], d[i+1], u[i+1]) and
   * (d[i], u[i+1], u[i]), indices taken modulo the ring sizes.
   */
  function Quad(i: nat, n: nat, m: nat): seq<Corner>
    requires i < n && 0 < m
  {
    [Down(i), Down((i + 1) % n), Up((i + 1) % m), Down(i), Up((i + 1) % m), Up(i)]
  }

  /** The vertices of the first `count` quads, in drawing order. */
  function WallCorners(n: nat, m: nat, count: nat): seq<Corner>
    requires count <= n && count <= m
  {
    if count == 0 then [] else WallCorners(n, m, count - 1) + Quad(count - 1, n, m)
  }

  /**
   * How a wall pass ends. When up_points is shorter than down_points the
   * source reads a missing up point at edge m (up_points[i] for m > 0, the
   * index (i + 1) % 0 for m == 0) and dereferencing it throws; the quads
   * before edge m have been drawn, the half-issued quad m never completes.
   */
  datatype Outcome = Complete(corners: seq<Corner>) | Interrupted(corners: seq<Corner>, at: nat)

  /** The loop over i in Area3D.show, for one detail. */
  method DrawWalls(n: nat, m: nat) returns (r: Outcome)
    ensures r.Complete? <==> n <= m
    ensures r.Complete? ==> r.corners == WallCorners(n, m, n)
    ensures r.Interrupted? ==> r.at == m && r.corners == WallCorners(n, m, m)
  {
    var corners := [];
    for i := 0 to n
      invariant i <= m
      invariant corners == WallCorners(n, m, i)
    {
      if m <= i {
        return Interrupted(corners, i);
      }
      corners := corners + Quad(i, n, m);
    }
    return Complete(corners);
  }

  /** Each quad contributes six vertices. */
  lemma {:induction false} WallsLength(n: nat, m: nat, count: nat)
    requires count <= n && count <= m
    ensures |WallCorners(n, m, count)| == 6 * count
  {
    if count > 0 {
      WallsLength(n, m, count - 1);
    }
  }

  /** Quad q occupies positions 6q .. 6q + 5 of the vertex list. */
  lemma {:induction false} WallsAt(n: nat, m: nat, count: nat, q: nat, k: nat)
    requires count <= n && count <= m && q < count && k < 6
    ensures |WallCorners(n, m, count)| == 6 * count
    ensures WallCorners(n, m, count)[6 * q + k] == Quad(q, n, m)[k]
  {
    WallsLength(n, m, count - 1);
    if q < count - 1 {
      WallsAt(n, m, count - 1, q, k);
    }
  }

  /** A pass that completes never reads past either ring. */
  lemma WallCornersInRange(n: nat, m: nat, j: nat)
    requires n <= m && j < |WallCorners(n, m, n)|
    ensures |WallCorners(n, m, n)| == 6 * n
    ensures match WallCorners(n, m, n)[j]
      case Down(i) => i < n
      case Up(i) => i < m
  {
    WallsLength(n, m, n);
    WallsAt(n, m, n, j / 6, j % 6);
  }

  /** With rings of equal size every point of both rings is a vertex of the wall. */
  lemma WallCoversBothRings(n: nat, j: nat)
    requires j < n
    ensures Down(j) in WallCorners(n, n, n) && Up(j) in WallCorners(n, n, n)
  {
    WallsAt(n, n, n, j, 0);
    WallsAt(n, n, n, j, 5);
  }

  /** The wrap-around closes the ring: the last quad joins point n - 1 back to point 0 on both rings. */
  lemma WallRingCloses(n: nat)
    requires 0 < n
    ensures |WallCorners(n, n, n)| == 6 * n
    ensures WallCorners(n, n, n)[6 * (n - 1)] == Down(n - 1)
    ensures WallCorners(n, n, n)[6 * (n - 1) + 1] == Down(0)
    ensures WallCorners(n, n, n)[6 * (n - 1) + 2] == Up(0)
    ensures WallCorners(n, n, n)[6 * (n - 1) + 5] == Up(n - 1)
  {
    var q := n - 1;
    assert (q + 1) % n == 0;
    assert Quad(q, n, n) == [Down(q), Down(0), Up(0), Down(q), Up(0), Up(q)];
    WallsAt(n, n, n, q, 0);
    WallsAt(n, n, n, q, 1);
    WallsAt(n, n, n, q, 2);
    WallsAt(n, n, n, q, 5);
  }
}
