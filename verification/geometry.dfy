/**
 * The part of pygame's Rect that the game relies on, on integer coordinates.
 * Assumptions about pygame stated here:
 *  - `centerx` is `left + width // 2` and `centery` is `top + height // 2`;
 *  - assigning `centerx`, `right`, `bottom`, ... moves the rectangle and keeps its size;
 *  - `get_rect(center=(x, y))` places a rectangle so that its centre is `(x, y)`;
 *  - `colliderect` is strict overlap on both axes.
 */
module Geometry {
  import opened Wrappers

  datatype Rect = Rect(left: int, top: int, width: nat, height: nat) {
    function Right(): int { left + width }
    function Bottom(): int { top + height }
    function CenterX(): int { left + width / 2 }
    function CenterY(): int { top + height / 2 }

    function MoveBy(dx: int, dy: int): Rect { this.(left := left + dx, top := top + dy) }
    function AtLeft(x: int): Rect { this.(left := x) }
    function AtRight(x: int): Rect { this.(left := x - width) }
    function AtTop(y: int): Rect { this.(top := y) }
    function AtBottom(y: int): Rect { this.(top := y - height) }
    function AtCenterX(x: int): Rect { this.(left := x - width / 2) }
  }

  /** `image.get_rect(center=(x, y))` for an image of the given size. */
  function CenteredAt(x: int, y: int, width: nat, height: nat): (r: Rect)
    ensures r.CenterX() == x && r.CenterY() == y && r.width == width && r.height == height
  {
    Rect(x - width / 2, y - height / 2, width, height)
  }

  /** `a.colliderect(b)`. */
  predicate Overlaps(a: Rect, b: Rect) {
    a.left < b.Right() && b.left < a.Right() && a.top < b.Bottom() && b.top < a.Bottom()
  }

  /**
   * The index of the first rectangle of `rs` that overlaps `r`: what a `for`
   * loop over a sprite group that breaks on the first `colliderect` finds.
   */
  function FirstOverlap(rs: seq<Rect>, r: Rect): (k: Option<nat>)
    ensures k.Some? ==> k.value < |rs| && Overlaps(rs[k.value], r)
    ensures k.Some? ==> forall j :: 0 <= j < k.value ==> !Overlaps(rs[j], r)
    ensures k.None? <==> forall j :: 0 <= j < |rs| ==> !Overlaps(rs[j], r)
  {
    if |rs| == 0 then None
    else if Overlaps(rs[0], r) then Some(0)
    else match FirstOverlap(rs[1..], r)
      case None => None
      case Some(j) => Some(j + 1)
  }
}
