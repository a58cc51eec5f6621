/** Axis-aligned integer rectangles and the collision test between a moving
    sprite and the platforms of a level. Screen coordinates: y grows downward. */
module Geometry {

  /** A rectangle at (x, y) of size w by h; the fields mirror pygame's Rect. */
  datatype Rect = Rect(x: int, y: int, w: int, h: int) {
    function Left(): int { x }
    function Right(): int { x + w }
    function Top(): int { y }
    function Bottom(): int { y + h }
  }

  /** Strict overlap of two rectangles: touching edges do not collide. */
  predicate Overlaps(a: Rect, b: Rect) {
    a.Left() < b.Right() && b.Left() < a.Right() && a.Top() < b.Bottom() && b.Top() < a.Bottom()
  }

  /** The platforms that `a` collides with, kept in the order of `ps`
      (the hit list a sprite collision query returns). */
  function Hits(a: Rect, ps: seq<Rect>): (r: seq<Rect>)
    ensures |r| <= |ps|
    ensures forall b :: b in r <==> b in ps && Overlaps(a, b)
  {
    if ps == [] then []
    else if Overlaps(a, ps[0]) then [ps[0]] + Hits(a, ps[1..])
    else Hits(a, ps[1..])
  }

  /** The hit list is empty exactly when no platform overlaps `a`. */
  lemma HitsEmptyIff(a: Rect, ps: seq<Rect>)
    ensures Hits(a, ps) != [] <==> exists k :: 0 <= k < |ps| && Overlaps(a, ps[k])
  {
    var r := Hits(a, ps);
    if r != [] {
      assert r[0] in ps && Overlaps(a, r[0]);
      var k :| 0 <= k < |ps| && ps[k] == r[0];
      assert Overlaps(a, ps[k]);
    }
    if k :| 0 <= k < |ps| && Overlaps(a, ps[k]) {
      assert ps[k] in r;
    }
  }

  /** The head of the hit list is the first overlapping platform in list order. */
  lemma {:induction false} HitsFirst(a: Rect, ps: seq<Rect>, k: nat)
    requires k < |ps| && Overlaps(a, ps[k])
    requires forall j :: 0 <= j < k ==> !Overlaps(a, ps[j])
    ensures Hits(a, ps) != [] && Hits(a, ps)[0] == ps[k]
  {
    if k > 0 {
      assert !Overlaps(a, ps[0]);
      forall j | 0 <= j < k - 1 ensures !Overlaps(a, ps[1..][j]) {
        assert ps[1..][j] == ps[j + 1];
      }
      HitsFirst(a, ps[1..], k - 1);
    }
  }

  /** The tail of the hit list is the last overlapping platform in list order. */
  lemma {:induction false} HitsLast(a: Rect, ps: seq<Rect>, k: nat)
    requires k < |ps| && Overlaps(a, ps[k])
    requires forall j :: k < j < |ps| ==> !Overlaps(a, ps[j])
    ensures Hits(a, ps) != [] && Hits(a, ps)[|Hits(a, ps)| - 1] == ps[k]
  {
    if k == 0 {
      forall j | 0 <= j < |ps[1..]| ensures !Overlaps(a, ps[1..][j]) {
        assert ps[1..][j] == ps[j + 1];
      }
      HitsEmptyIff(a, ps[1..]);
      assert Hits(a, ps) == [ps[0]];
    } else {
      forall j | k - 1 < j < |ps[1..]| ensures !Overlaps(a, ps[1..][j]) {
        assert ps[1..][j] == ps[j + 1];
      }
      HitsLast(a, ps[1..], k - 1);
      if Overlaps(a, ps[0]) {
        var rest := Hits(a, ps[1..]);
        assert Hits(a, ps) == [ps[0]] + rest;
        assert Hits(a, ps)[|Hits(a, ps)| - 1] == rest[|rest| - 1];
      }
    }
  }
}
