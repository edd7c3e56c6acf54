/** Projectile-against-enemy hits and the score they earn. */
module Collision {
  import opened Geometry
  import opened Entities

  /** `(projectile.pos - enemy.pos).length() < enemy.size` without the square root: a length
      is never negative, so the test fails for a size that is not positive and otherwise
      compares the squares. */
  predicate Hit(p: Rectangle, e: Rectangle)
    ensures Hit(p, e) ==> e.size > 0.0
  {
    0.0 < e.size && SqLength(Sub(p.pos, e.pos)) < e.size * e.size
  }

  /** Given the distance `len` between the two positions, `Hit` is the source's test. */
  lemma HitIsLengthTest(p: Rectangle, e: Rectangle, len: real)
    requires IsLengthOf(len, Sub(p.pos, e.pos))
    ensures Hit(p, e) <==> len < e.size
  {
    if len < e.size {
      SquareStrict(len, e.size);
    } else if 0.0 < e.size {
      SquareMono(e.size, len);
    }
  }

  /** Some rectangle of `es` is hit by projectile `p`. */
  predicate HitByAny(p: Rectangle, es: seq<Rectangle>) {
    exists i :: 0 <= i < |es| && Hit(p, es[i])
  }

  /** Some projectile of `ps` hits enemy `e`. */
  predicate HitsAny(e: Rectangle, ps: seq<Rectangle>) {
    exists j :: 0 <= j < |ps| && Hit(ps[j], e)
  }

  /** How many projectiles of `ps` hit enemy `e`: the score one pass of the inner loop adds. */
  function HitCount(e: Rectangle, ps: seq<Rectangle>): (n: nat)
    ensures n <= |ps|
    ensures n == 0 <==> !HitsAny(e, ps)
  {
    if |ps| == 0 then 0
    else
      var init := ps[..|ps| - 1];
      assert forall j :: 0 <= j < |init| ==> init[j] == ps[j];
      HitCount(e, init) + (if Hit(ps[|ps| - 1], e) then 1 else 0)
  }

  /** The score the whole enemy loop adds: hits summed over the enemies. */
  function PairCount(es: seq<Rectangle>, ps: seq<Rectangle>): (n: nat)
    ensures n == 0 <==> forall i :: 0 <= i < |es| ==> !HitsAny(es[i], ps)
  {
    if |es| == 0 then 0
    else
      var init := es[..|es| - 1];
      assert forall i :: 0 <= i < |init| ==> init[i] == es[i];
      PairCount(init, ps) + HitCount(es[|es| - 1], ps)
  }

  /** The (enemy index, projectile index) pairs whose distance is below the enemy's size. */
  function HitPairs(es: seq<Rectangle>, ps: seq<Rectangle>): set<(int, int)> {
    set i, j | 0 <= i < |es| && 0 <= j < |ps| && Hit(ps[j], es[i]) :: (i, j)
  }

  /** The hits of enemy `e`, standing at index `i`, as index pairs. */
  function HitRow(e: Rectangle, i: int, ps: seq<Rectangle>): set<(int, int)> {
    set j | 0 <= j < |ps| && Hit(ps[j], e) :: (i, j)
  }

  /** The hits of `e` among all of `ps` are those among all but the last, plus the last. */
  lemma HitRowSplit(e: Rectangle, i: int, ps: seq<Rectangle>)
    requires |ps| > 0
    ensures Hit(ps[|ps| - 1], e) ==> HitRow(e, i, ps) == HitRow(e, i, ps[..|ps| - 1]) + {(i, |ps| - 1)}
    ensures !Hit(ps[|ps| - 1], e) ==> HitRow(e, i, ps) == HitRow(e, i, ps[..|ps| - 1])
    ensures (i, |ps| - 1) !in HitRow(e, i, ps[..|ps| - 1])
  {
    var n := |ps| - 1;
    var init := ps[..n];
    forall q | q in HitRow(e, i, ps) && q.1 < n ensures q in HitRow(e, i, init) {
      assert init[q.1] == ps[q.1];
    }
    forall q | q in HitRow(e, i, init) ensures q in HitRow(e, i, ps) {
      assert init[q.1] == ps[q.1];
    }
  }

  lemma {:induction false} HitCountIsRowSize(e: Rectangle, i: int, ps: seq<Rectangle>)
    ensures HitCount(e, ps) == |HitRow(e, i, ps)|
  {
    if |ps| > 0 {
      var n := |ps| - 1;
      var init := ps[..n];
      HitCountIsRowSize(e, i, init);
      HitRowSplit(e, i, ps);
      assert HitCount(e, ps) == HitCount(e, init) + (if Hit(ps[n], e) then 1 else 0);
    }
  }

  /** The hitting pairs of all enemies are those of all but the last, plus the last's row. */
  lemma HitPairsSplit(es: seq<Rectangle>, ps: seq<Rectangle>)
    requires |es| > 0
    ensures var n := |es| - 1;
      HitPairs(es, ps) == HitPairs(es[..n], ps) + HitRow(es[n], n, ps)
    ensures var n := |es| - 1;
      HitPairs(es[..n], ps) * HitRow(es[n], n, ps) == {}
  {
    var n := |es| - 1;
    var init := es[..n];
    forall q | q in HitPairs(es, ps) && q.0 < n ensures q in HitPairs(init, ps) {
      assert init[q.0] == es[q.0];
    }
    forall q | q in HitPairs(init, ps) ensures q in HitPairs(es, ps) {
      assert init[q.0] == es[q.0];
    }
    forall q | q in HitRow(es[n], n, ps) ensures q !in HitPairs(init, ps) {
    }
  }

  /** The score a frame adds is exactly the number of hitting (enemy, projectile) pairs. */
  lemma {:induction false} PairCountIsHitPairs(es: seq<Rectangle>, ps: seq<Rectangle>)
    ensures PairCount(es, ps) == |HitPairs(es, ps)|
  {
    if |es| > 0 {
      var n := |es| - 1;
      PairCountIsHitPairs(es[..n], ps);
      HitCountIsRowSize(es[n], n, ps);
      HitPairsSplit(es, ps);
    }
  }

  /** Extending the enemies by one more adds that enemy's hit to `HitByAny`. */
  lemma HitByAnyExtend(p: Rectangle, es: seq<Rectangle>, i: int)
    requires 0 <= i < |es|
    ensures HitByAny(p, es[..i + 1]) <==> HitByAny(p, es[..i]) || Hit(p, es[i])
  {
    if HitByAny(p, es[..i + 1]) {
      var k :| 0 <= k < i + 1 && Hit(p, es[..i + 1][k]);
      if k < i {
        assert es[..i][k] == es[k];
      }
    }
    if HitByAny(p, es[..i]) {
      var k :| 0 <= k < i && Hit(p, es[..i][k]);
      assert es[..i + 1][k] == es[k];
    }
    assert es[..i + 1][i] == es[i];
  }

  /** Extending the projectiles by one more adds that projectile's hit to `HitsAny`. */
  lemma HitsAnyExtend(e: Rectangle, ps: seq<Rectangle>, j: int)
    requires 0 <= j < |ps|
    ensures HitsAny(e, ps[..j + 1]) <==> HitsAny(e, ps[..j]) || Hit(ps[j], e)
  {
    if HitsAny(e, ps[..j + 1]) {
      var k :| 0 <= k < j + 1 && Hit(ps[..j + 1][k], e);
      if k < j {
        assert ps[..j][k] == ps[k];
      }
    }
    if HitsAny(e, ps[..j]) {
      var k :| 0 <= k < j && Hit(ps[..j][k], e);
      assert ps[..j + 1][k] == ps[k];
    }
    assert ps[..j + 1][j] == ps[j];
  }

  /** Whether a projectile hits an enemy depends only on their positions and the enemy's size. */
  lemma HitByPlace(p: Rectangle, q: Rectangle, e: Rectangle, f: Rectangle)
    requires p.pos == q.pos && e.pos == f.pos && e.size == f.size
    ensures Hit(p, e) == Hit(q, f)
  {
  }

  /** One more projectile adds its hit to the count. */
  lemma HitCountExtend(e: Rectangle, ps: seq<Rectangle>, j: int)
    requires 0 <= j < |ps|
    ensures HitCount(e, ps[..j + 1]) == HitCount(e, ps[..j]) + (if Hit(ps[j], e) then 1 else 0)
  {
    assert ps[..j + 1][..j] == ps[..j];
    assert ps[..j + 1][j] == ps[j];
  }

  /** One more enemy adds its hits to the count. */
  lemma PairCountExtend(es: seq<Rectangle>, ps: seq<Rectangle>, i: int)
    requires 0 <= i < |es|
    ensures PairCount(es[..i + 1], ps) == PairCount(es[..i], ps) + HitCount(es[i], ps)
  {
    assert es[..i + 1][..i] == es[..i];
    assert es[..i + 1][i] == es[i];
  }
}
