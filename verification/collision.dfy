/**
 * The ball-versus-brick resolver: which face of the brick the ball came
 * through, and the bounce that puts the ball back outside that face.
 *
 * The source halves the combined extents (`w`, `h`) as floats. Comparing
 * `w * dy` with `h * dx` is the same as comparing `(2w) * dy` with `(2h) * dx`,
 * so the model works with the doubled extents in integers and proves the
 * two tests equal (ImpactSideMatchesHalves).
 */
module Collision {
  import opened Wrappers
  import opened Config
  import opened Geometry
  import opened Entities

  /** Where the ball sits relative to the brick it hit. */
  datatype Side = Below | LeftOf | RightOf | Above

  /** Doubled horizontal and vertical reach at which two rects' centres can still touch. */
  function ReachX(ball: Rect, brick: Rect): nat { ball.width + brick.width }
  function ReachY(ball: Rect, brick: Rect): nat { ball.height + brick.height }

  /**
   * The branch structure of the resolver: within reach, the two cross-product
   * comparisons pick the side.
   */
  function Classify(near: bool, aboveMain: bool, aboveAnti: bool): Option<Side>
  {
    if near then
      if aboveMain then
        if aboveAnti then Some(Below) else Some(LeftOf)
      else
        if aboveAnti then Some(RightOf) else Some(Above)
    else
      None
  }

  /** The resolver's face test, in exact integers. None when the centres are too far apart. */
  function ImpactSide(ball: Rect, brick: Rect): Option<Side>
  {
    SideAt(ball.CenterX() - brick.CenterX(), ball.CenterY() - brick.CenterY(), ReachX(ball, brick), ReachY(ball, brick))
  }

  /** The face test for centre offsets `dx`, `dy` and doubled reaches `w2`, `h2`. */
  function SideAt(dx: int, dy: int, w2: int, h2: int): Option<Side>
  {
    Classify(2 * Abs(dx) <= w2 && 2 * Abs(dy) <= h2, w2 * dy > h2 * dx, w2 * dy > -(h2 * dx))
  }

  function RealAbs(x: real): real { if x < 0.0 then -x else x }

  /** The same test written as the source does, with the halves `w`, `h` as reals. */
  function ImpactSideHalves(ball: Rect, brick: Rect): Option<Side>
  {
    SideAtHalves((ball.CenterX() - brick.CenterX()) as real, (ball.CenterY() - brick.CenterY()) as real,
                 (ball.width + brick.width) as real / 2.0, (ball.height + brick.height) as real / 2.0)
  }

  function SideAtHalves(dx: real, dy: real, w: real, h: real): Option<Side>
  {
    var crossW := w * dy;
    var crossH := h * dx;
    Classify(RealAbs(dx) <= w && RealAbs(dy) <= h, crossW > crossH, crossW > -crossH)
  }

  /** Halving both factors' scales keeps a comparison of products. */
  lemma CompareHalves(w2: int, h2: int, dx: int, dy: int)
    ensures ((w2 as real / 2.0) * (dy as real) > (h2 as real / 2.0) * (dx as real)) <==> (w2 * dy > h2 * dx)
    ensures ((w2 as real / 2.0) * (dy as real) > -((h2 as real / 2.0) * (dx as real))) <==> (w2 * dy > -(h2 * dx))
  {
    assert (w2 as real / 2.0) * (dy as real) == (w2 * dy) as real / 2.0;
    assert (h2 as real / 2.0) * (dx as real) == (h2 * dx) as real / 2.0;
  }

  lemma AbsWithinHalf(d: int, reach: int)
    ensures (RealAbs(d as real) <= reach as real / 2.0) <==> (2 * Abs(d) <= reach)
  {
  }

  /** The two tests agree on plain numbers: the centre offsets and the doubled reaches. */
  lemma HalvesAgree(dx: int, dy: int, w2: int, h2: int)
    ensures SideAt(dx, dy, w2, h2) == SideAtHalves(dx as real, dy as real, w2 as real / 2.0, h2 as real / 2.0)
  {
    CompareHalves(w2, h2, dx, dy);
    AbsWithinHalf(dx, w2);
    AbsWithinHalf(dy, h2);
  }

  /** The integer test with doubled extents decides exactly as the real test with halves. */
  lemma ImpactSideMatchesHalves(ball: Rect, brick: Rect)
    ensures ImpactSide(ball, brick) == ImpactSideHalves(ball, brick)
  {
    HalvesAgree(ball.CenterX() - brick.CenterX(), ball.CenterY() - brick.CenterY(),
                ball.width + brick.width, ball.height + brick.height);
  }

  /** Overlapping rects always pass the distance guard, so an overlap always resolves to a side. */
  lemma OverlapHasSide(ball: Rect, brick: Rect)
    requires Overlaps(ball, brick)
    ensures ImpactSide(ball, brick).Some?
  {
    var dx := ball.CenterX() - brick.CenterX();
    var dy := ball.CenterY() - brick.CenterY();
    assert 2 * (ball.width / 2) <= ball.width && 2 * (brick.width / 2) >= brick.width - 1;
    assert 2 * (brick.width / 2) <= brick.width && 2 * (ball.width / 2) >= ball.width - 1;
    assert 2 * (ball.height / 2) <= ball.height && 2 * (brick.height / 2) >= brick.height - 1;
    assert 2 * (brick.height / 2) <= brick.height && 2 * (ball.height / 2) >= ball.height - 1;
    assert 2 * Abs(dx) <= ReachX(ball, brick);
    assert 2 * Abs(dy) <= ReachY(ball, brick);
  }

  /** The sign of `x` can be read off `k * x` for a non-negative `k`. */
  lemma ScaledSign(k: int, x: int)
    requires k >= 0
    ensures k * x > 0 ==> x > 0
    ensures k * x < 0 ==> x < 0
    ensures k > 0 && k * x <= 0 ==> x <= 0
  {
    if x <= 0 {
      assert k * (-x) >= 0;
    }
    if x >= 0 {
      assert k * x >= 0;
    }
  }

  /** Each side agrees with where the ball's centre lies relative to the brick's centre. */
  lemma SideFollowsCentres(ball: Rect, brick: Rect)
    requires ImpactSide(ball, brick).Some?
    ensures ImpactSide(ball, brick) == Some(Below) ==> ball.CenterY() > brick.CenterY()
    ensures ImpactSide(ball, brick) == Some(LeftOf) ==> ball.CenterX() < brick.CenterX()
    ensures ImpactSide(ball, brick) == Some(RightOf) ==> ball.CenterX() > brick.CenterX()
    ensures ImpactSide(ball, brick) == Some(Above) && ReachX(ball, brick) > 0 ==> ball.CenterY() <= brick.CenterY()
  {
    var dx := ball.CenterX() - brick.CenterX();
    var dy := ball.CenterY() - brick.CenterY();
    ScaledSign(ReachX(ball, brick), dy);
    ScaledSign(ReachY(ball, brick), dx);
  }

  /**
   * `_resolve_brick_collision`: reflect the velocity away from the face the ball
   * came through and place the ball one pixel outside that face. Nothing
   * changes when the distance guard fails.
   */
  function Resolve(ball: Rect, v: Vec, brick: Rect): (res: (Rect, Vec))
    ensures res.0.width == ball.width && res.0.height == ball.height
    ensures ImpactSide(ball, brick).None? ==> res == (ball, v)
    ensures ImpactSide(ball, brick) == Some(Below) ==>
      res.0.top == brick.Bottom() + 1 && res.0.left == ball.left && res.1 == Vec(v.x, Abs(v.y))
    ensures ImpactSide(ball, brick) == Some(LeftOf) ==>
      res.0.Right() == brick.left - 1 && res.0.top == ball.top && res.1 == Vec(-Abs(v.x), v.y)
    ensures ImpactSide(ball, brick) == Some(RightOf) ==>
      res.0.left == brick.Right() + 1 && res.0.top == ball.top && res.1 == Vec(Abs(v.x), v.y)
    ensures ImpactSide(ball, brick) == Some(Above) ==>
      res.0.Bottom() == brick.top - 1 && res.0.left == ball.left && res.1 == Vec(v.x, -Abs(v.y))
    ensures ImpactSide(ball, brick).Some? ==> !Overlaps(res.0, brick)
  {
    match ImpactSide(ball, brick)
    case None => (ball, v)
    case Some(Below) => (ball.AtTop(brick.Bottom() + 1), v.(y := Abs(v.y)))
    case Some(LeftOf) => (ball.AtRight(brick.left - 1), v.(x := -Abs(v.x)))
    case Some(RightOf) => (ball.AtLeft(brick.Right() + 1), v.(x := Abs(v.x)))
    case Some(Above) => (ball.AtBottom(brick.top - 1), v.(y := -Abs(v.y)))
  }

  /**
   * After a resolution the ball is out of the guard's reach, so resolving
   * again against the same brick changes nothing.
   */
  lemma ResolveIdempotent(ball: Rect, v: Vec, brick: Rect)
    ensures var (b, w) := Resolve(ball, v, brick); Resolve(b, w, brick) == (b, w)
  {
    var (b, w) := Resolve(ball, v, brick);
    if ImpactSide(ball, brick).Some? {
      assert 2 * (ball.width / 2) >= ball.width - 1 && 2 * (brick.width / 2) <= brick.width;
      assert 2 * (ball.height / 2) >= ball.height - 1 && 2 * (brick.height / 2) <= brick.height;
      assert 2 * (ball.width / 2) <= ball.width && 2 * (brick.width / 2) >= brick.width - 1;
      assert 2 * (ball.height / 2) <= ball.height && 2 * (brick.height / 2) >= brick.height - 1;
      assert ImpactSide(b, brick).None?;
    }
  }
}
