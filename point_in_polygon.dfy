/** `checkPointInPolygon`, the ray-casting test that src/pages/user/Dashboard.tsx,
    src/pages/user/Alerts.tsx and src/pages/user/Map.tsx each carry a
    textually identical copy of. The ring is a list of GeoJSON positions
    (longitude, latitude); the ray runs east from the point along its
    latitude. Coordinates are exact reals, so IEEE rounding on edges is not
    modelled. */
module PointInPolygon {
  import opened Types

  /** One step of the loop: vertex i and vertex j, the one before it. */
  datatype Edge = Edge(vi: Position, vj: Position)

  /** The index j holds when the loop is at i: the previous vertex,
      wrapping round to the last one. */
  function Prev(i: nat, n: nat): (j: nat)
    requires i < n
    ensures j < n
  {
    if i == 0 then n - 1 else i - 1
  }

  /** The edges in the order the loop visits them. */
  function Edges(ring: seq<Position>): (es: seq<Edge>)
    ensures |es| == |ring|
    ensures forall i :: 0 <= i < |ring| ==> es[i] == Edge(ring[i], ring[Prev(i, |ring|)])
  {
    seq(|ring|, i requires 0 <= i < |ring| => Edge(ring[i], ring[Prev(i, |ring|)]))
  }

  /** The edge has one end strictly north of the point and the other not. */
  predicate Straddles(p: Position, e: Edge)
  {
    (e.vi.latitude > p.latitude) != (e.vj.latitude > p.latitude)
  }

  /** The `intersect` expression of the source, for a point (px, py) and an
      edge from (xi, yi) to (xj, yj). The division is guarded by the
      straddle test through `&&`: Dafny checks it only where the two
      latitudes differ, so the denominator is never 0. */
  predicate EdgeIntersects(px: real, py: real, xi: real, yi: real, xj: real, yj: real)
  {
    ((yi > py) != (yj > py)) && (px < (xj - xi) * (py - yi) / (yj - yi) + xi)
  }

  predicate Intersects(p: Position, e: Edge)
  {
    EdgeIntersects(p.longitude, p.latitude, e.vi.longitude, e.vi.latitude, e.vj.longitude, e.vj.latitude)
  }

  /** The number of edges of `es` the eastward ray crosses. */
  function Crossings(p: Position, es: seq<Edge>): (c: nat)
    ensures c <= |es|
  {
    if es == [] then 0
    else Crossings(p, es[..|es| - 1]) + (if Intersects(p, es[|es| - 1]) then 1 else 0)
  }

  /** What `checkPointInPolygon` returns: an odd number of crossings. */
  predicate Inside(p: Position, ring: seq<Position>)
  {
    Crossings(p, Edges(ring)) % 2 == 1
  }

  /** The loop of the source: `inside` is the parity of the crossings seen so
      far, with `j` trailing `i` by one vertex. */
  method CheckPointInPolygon(point: Position, polygon: seq<Position>) returns (inside: bool)
    ensures inside == Inside(point, polygon)
  {
    inside := false;
    ghost var es := Edges(polygon);
    var i, j := 0, |polygon| - 1;
    while i < |polygon|
      invariant 0 <= i <= |polygon|
      invariant i < |polygon| ==> j == Prev(i, |polygon|)
      invariant inside == (Crossings(point, es[..i]) % 2 == 1)
    {
      var xi, yi := polygon[i].longitude, polygon[i].latitude;
      var xj, yj := polygon[j].longitude, polygon[j].latitude;
      var intersect := EdgeIntersects(point.longitude, point.latitude, xi, yi, xj, yj);
      assert intersect == Intersects(point, es[i]);
      CrossingsStep(point, es, i);
      if intersect {
        OddStep(Crossings(point, es[..i]));
        inside := !inside;
      }
      j, i := i, i + 1;
    }
    assert es[..|polygon|] == es;
  }

  /** One more crossing flips the parity. */
  lemma OddStep(c: nat)
    ensures ((c + 1) % 2 == 1) == !(c % 2 == 1)
  {
  }

  /** Counting one more edge adds that edge's crossing. */
  lemma CrossingsStep(p: Position, es: seq<Edge>, i: nat)
    requires i < |es|
    ensures Crossings(p, es[..i + 1]) == Crossings(p, es[..i]) + (if Intersects(p, es[i]) then 1 else 0)
  {
    assert es[..i + 1][..i] == es[..i];
  }

  lemma {:induction false} CrossingsAppend(p: Position, a: seq<Edge>, b: seq<Edge>)
    ensures Crossings(p, a + b) == Crossings(p, a) + Crossings(p, b)
    decreases |b|
  {
    if b == [] {
      assert a + b == a;
    } else {
      var b' := b[..|b| - 1];
      assert (a + b)[..|a + b| - 1] == a + b';
      assert (a + b)[|a + b| - 1] == b[|b| - 1];
      CrossingsAppend(p, a, b');
    }
  }

  lemma {:induction false} NoIntersectionNoCrossings(p: Position, es: seq<Edge>)
    requires forall k :: 0 <= k < |es| ==> !Intersects(p, es[k])
    ensures Crossings(p, es) == 0
  {
    if es != [] {
      NoIntersectionNoCrossings(p, es[..|es| - 1]);
    }
  }

  /** The straddle test is symmetric in the two ends of the edge, and so is
      the crossing longitude: both ends give the same interpolated point. */
  lemma IntersectsReversed(p: Position, a: Position, b: Position)
    ensures Intersects(p, Edge(a, b)) == Intersects(p, Edge(b, a))
  {
    if (a.latitude > p.latitude) != (b.latitude > p.latitude) {
      var d := b.latitude - a.latitude;
      var dx := b.longitude - a.longitude;
      var x1 := CrossingLongitude(p.latitude, a, b);
      var x2 := CrossingLongitude(p.latitude, b, a);
      // (x1 - a) * d == dx * (y - ya) and (x2 - b) * d == dx * (y - yb)
      assert (x2 - b.longitude) * d == dx * (p.latitude - b.latitude) by {
        assert (x2 - b.longitude) * d == -((x2 - b.longitude) * (a.latitude - b.latitude));
      }
      // subtracting: (x1 - x2 + b - a) * d == dx * d, so x1 - x2 == 0 once d is cancelled
      assert (x1 - x2 - dx + (b.longitude - a.longitude)) * d == 0.0 by {
        assert (x1 - a.longitude) * d - (x2 - b.longitude) * d == dx * (b.latitude - a.latitude);
      }
      CancelNonzero(x1 - x2 - dx + (b.longitude - a.longitude), d);
    }
  }

  /** The longitude at which the edge from `a` to `b` reaches latitude `y`,
      as the source interpolates it; scaled by the latitude difference it is
      the linear relation the division stands for. */
  function CrossingLongitude(y: real, a: Position, b: Position): (x: real)
    requires a.latitude != b.latitude
    ensures (x - a.longitude) * (b.latitude - a.latitude) == (b.longitude - a.longitude) * (y - a.latitude)
  {
    var n := (b.longitude - a.longitude) * (y - a.latitude);
    var d := b.latitude - a.latitude;
    assert n / d * d == n;
    n / d + a.longitude
  }

  lemma CancelNonzero(u: real, d: real)
    requires d != 0.0 && u * d == 0.0
    ensures u == 0.0
  {
  }

  /** A ring of at most two vertices contains no point: no edge, a
      zero-length self-edge, or one edge visited in both directions. */
  lemma FewVerticesNeverInside(p: Position, ring: seq<Position>)
    requires |ring| <= 2
    ensures !Inside(p, ring)
  {
    var es := Edges(ring);
    if |ring| == 2 {
      IntersectsReversed(p, ring[0], ring[1]);
      assert es[0] == Edge(ring[0], ring[1]) && es[1] == Edge(ring[1], ring[0]);
      assert es[..1][..0] == [] && es[..1][0] == es[0];
      assert es[..|es| - 1] == es[..1];
      assert Crossings(p, es) == Crossings(p, es[..1]) + (if Intersects(p, es[1]) then 1 else 0);
      assert Crossings(p, es[..1]) == (if Intersects(p, es[0]) then 1 else 0);
    } else if |ring| == 1 {
      assert es[..0] == [];
    }
  }

  /** A point on or north of every vertex, or south of every vertex, is
      outside: no edge straddles its latitude. */
  lemma OutsideLatitudeRangeNeverInside(p: Position, ring: seq<Position>)
    requires (forall k :: 0 <= k < |ring| ==> ring[k].latitude <= p.latitude)
          || (forall k :: 0 <= k < |ring| ==> ring[k].latitude > p.latitude)
    ensures !Inside(p, ring)
  {
    NoIntersectionNoCrossings(p, Edges(ring));
  }

  /** Where a straddling edge meets the point's latitude lies between the
      longitudes of its two ends. */
  lemma CrossingBetweenEnds(p: Position, e: Edge)
    requires Straddles(p, e)
    ensures var x := (e.vj.longitude - e.vi.longitude) * (p.latitude - e.vi.latitude)
                     / (e.vj.latitude - e.vi.latitude) + e.vi.longitude;
            x <= e.vi.longitude || x <= e.vj.longitude
  {
    var xi, yi, xj, yj := e.vi.longitude, e.vi.latitude, e.vj.longitude, e.vj.latitude;
    var num, den := p.latitude - yi, yj - yi;
    var t := num / den;
    assert t * den == num;
    if yi > p.latitude {
      assert num < 0.0 && den < 0.0 && num >= den;
    } else {
      assert num >= 0.0 && den > 0.0 && num < den;
    }
    assert 0.0 <= t <= 1.0;
    assert (xj - xi) * (p.latitude - yi) / (yj - yi) == (xj - xi) * t;
    var x := (xj - xi) * t + xi;
    assert x == (1.0 - t) * xi + t * xj;
    if xi <= xj {
      assert (1.0 - t) * xi <= (1.0 - t) * xj;
    } else {
      assert t * xj <= t * xi;
    }
  }

  /** A point on or east of every vertex is outside: each crossing lies at
      or west of one end of its edge. */
  lemma EastOfAllVerticesNeverInside(p: Position, ring: seq<Position>)
    requires forall k :: 0 <= k < |ring| ==> ring[k].longitude <= p.longitude
    ensures !Inside(p, ring)
  {
    var es := Edges(ring);
    forall k | 0 <= k < |es|
      ensures !Intersects(p, es[k])
    {
      var e := es[k];
      assert e.vi.longitude <= p.longitude && e.vj.longitude <= p.longitude by {
        assert e.vi == ring[k] && e.vj == ring[Prev(k, |ring|)];
      }
      if Straddles(p, e) {
        CrossingBetweenEnds(p, e);
      }
    }
    NoIntersectionNoCrossings(p, es);
  }

  /** The edges of a ring closed by repeating its first vertex: a
      zero-length edge at the first vertex, then the open ring's edges with
      its closing edge moved to the end. */
  lemma ClosedRingEdges(ring: seq<Position>)
    requires |ring| >= 1
    ensures Edges(ring + [ring[0]]) == [Edge(ring[0], ring[0])] + Edges(ring)[1..] + [Edges(ring)[0]]
  {
    var n := |ring|;
    var closed := ring + [ring[0]];
    var es, ces := Edges(ring), Edges(closed);
    var want := [Edge(ring[0], ring[0])] + es[1..] + [es[0]];
    forall k | 0 <= k <= n ensures ces[k] == want[k] {
      if k == 0 {
      } else if k == n {
      } else {
        assert closed[k] == ring[k] && closed[k - 1] == ring[k - 1];
      }
    }
  }

  /** Moving the first edge to the end, or adding an edge that never
      crosses, keeps the count of crossings. */
  lemma CrossingsMoveFirst(p: Position, e0: Edge, es: seq<Edge>)
    requires es != [] && !Intersects(p, e0)
    ensures Crossings(p, [e0] + es[1..] + [es[0]]) == Crossings(p, es)
  {
    CrossingsAppend(p, [e0] + es[1..], [es[0]]);
    CrossingsAppend(p, [e0], es[1..]);
    CrossingsAppend(p, [es[0]], es[1..]);
    assert [e0][..0] == [] && [es[0]][..0] == [];
    assert es == [es[0]] + es[1..];
  }

  /** Closing a ring by repeating its first vertex, as GeoJSON does,
      changes nothing: the added zero-length edge never straddles, and the
      closing edge is the one the open ring had at position 0. */
  lemma ClosingVertexChangesNothing(p: Position, ring: seq<Position>)
    requires |ring| >= 1
    ensures Inside(p, ring + [ring[0]]) == Inside(p, ring)
  {
    ClosedRingEdges(ring);
    CrossingsMoveFirst(p, Edge(ring[0], ring[0]), Edges(ring));
  }


  /** Moving the first vertex to the end visits the same edges, the first
      of them last. */
  lemma RotateOnceSameEdges(ring: seq<Position>)
    requires |ring| >= 1
    ensures Edges(ring[1..] + [ring[0]]) == Edges(ring)[1..] + [Edges(ring)[0]]
  {
    var n := |ring|;
    var r := ring[1..] + [ring[0]];
    var es, rs := Edges(ring), Edges(r);
    forall k | 0 <= k < n
      ensures rs[k] == (es[1..] + [es[0]])[k]
    {
      if k < n - 1 {
        assert r[k] == ring[k + 1];
        if k == 0 {
          assert r[Prev(0, n)] == ring[0];
        } else {
          assert r[k - 1] == ring[k];
        }
      } else {
        assert r[k] == ring[0];
        if n >= 2 {
          assert r[k - 1] == ring[n - 1];
        }
      }
    }
  }

  lemma RotateOnceSameCrossings(p: Position, s: seq<Position>)
    requires |s| >= 1
    ensures Crossings(p, Edges(s[1..] + [s[0]])) == Crossings(p, Edges(s))
  {
    RotateOnceSameEdges(s);
    var es := Edges(s);
    assert es == [es[0]] + es[1..];
    CrossingsAppend(p, es[1..], [es[0]]);
    CrossingsAppend(p, [es[0]], es[1..]);
    assert [es[0]][..0] == [];
  }

  /** Starting the ring at another vertex does not change the answer. */
  lemma {:induction false} RotationChangesNothing(p: Position, ring: seq<Position>, k: nat)
    requires k <= |ring|
    ensures Inside(p, ring[k..] + ring[..k]) == Inside(p, ring)
  {
    if k == 0 {
      assert ring[0..] + ring[..0] == ring;
    } else {
      RotationChangesNothing(p, ring, k - 1);
      var s := ring[k - 1..] + ring[..k - 1];
      assert s[0] == ring[k - 1];
      assert ring[..k] == ring[..k - 1] + [ring[k - 1]];
      assert s[1..] == ring[k..] + ring[..k - 1];
      assert s[1..] + [s[0]] == ring[k..] + ring[..k];
      RotateOnceSameCrossings(p, s);
    }
  }

  /** A 10-by-10 square: (5,5) is inside [(0,0),(0,10),(10,10),(10,0)];
      (15,15) and (-1,-1) are not. */
  lemma SquareExamples()
    ensures Inside(Position(5.0, 5.0), [Position(0.0, 0.0), Position(0.0, 10.0), Position(10.0, 10.0), Position(10.0, 0.0)])
    ensures !Inside(Position(15.0, 15.0), [Position(0.0, 0.0), Position(0.0, 10.0), Position(10.0, 10.0), Position(10.0, 0.0)])
    ensures !Inside(Position(-1.0, -1.0), [Position(0.0, 0.0), Position(0.0, 10.0), Position(10.0, 10.0), Position(10.0, 0.0)])
  {
    var sq := [Position(0.0, 0.0), Position(0.0, 10.0), Position(10.0, 10.0), Position(10.0, 0.0)];
    var es := Edges(sq);
    var p := Position(5.0, 5.0);
    assert es[..4][..3] == es[..3] && es[..3][..2] == es[..2] && es[..2][..1] == es[..1] && es[..1][..0] == [];
    assert es[0] == Edge(sq[0], sq[3]) && es[1] == Edge(sq[1], sq[0]);
    assert es[2] == Edge(sq[2], sq[1]) && es[3] == Edge(sq[3], sq[2]);
    assert !Intersects(p, es[0]) && !Intersects(p, es[1]) && !Intersects(p, es[2]) && Intersects(p, es[3]);
    assert Crossings(p, es[..1]) == 0;
    assert Crossings(p, es[..2]) == 0;
    assert Crossings(p, es[..3]) == 0;
    assert es[..4] == es;
    OutsideLatitudeRangeNeverInside(Position(15.0, 15.0), sq);
    OutsideLatitudeRangeNeverInside(Position(-1.0, -1.0), sq);
  }
}
