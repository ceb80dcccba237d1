/** The draggable vinyl player: where it sits on the screen, how a drag moves
    it, how a window resize pulls it back, and its expand toggle.

    Screen sizes, client coordinates and element corners are integers; the
    window size an event handler reads is passed to it as `width` and `height`. */
module DraggableMusicPlayer {

  /** The widest the player gets; a drag keeps its left edge at most this far from the right border. */
  const PlayerWidth := 320
  /** The player's collapsed height plus margin, kept clear of the bottom border. */
  const PlayerHeight := 106

  function Min(a: int, b: int): (r: int)
    ensures r <= a && r <= b && (r == a || r == b)
  {
    if a <= b then a else b
  }

  function Max(a: int, b: int): (r: int)
    ensures r >= a && r >= b && (r == a || r == b)
  {
    if a >= b then a else b
  }

  /** `Math.max(0, Math.min(v, hi))`: the drag target kept inside `[0, hi]`. */
  function Clamp(v: int, hi: int): (r: int)
    ensures r >= 0
    ensures hi >= 0 ==> r <= hi
    ensures 0 <= v <= hi ==> r == v
    ensures hi < 0 ==> r == 0
  {
    Max(0, Min(v, hi))
  }

  /** Of all the points of `[0, hi]`, the clamped one is the closest to `v`. */
  lemma ClampNearest(v: int, hi: int, p: int)
    requires 0 <= p <= hi
    ensures var r := Clamp(v, hi); (if r <= v then v - r else r - v) <= (if p <= v then v - p else p - v)
  {
  }

  /** Clamping a clamped value changes nothing. */
  lemma ClampIdempotent(v: int, hi: int)
    ensures Clamp(Clamp(v, hi), hi) == Clamp(v, hi)
  {
  }

  /** Within range, the player follows the mouse exactly: moving the mouse
      by `d` moves the player by `d`. */
  lemma DragFollowsMouse(client: int, offset: int, d: int, hi: int)
    requires 0 <= client - offset <= hi && 0 <= client + d - offset <= hi
    ensures Clamp(client + d - offset, hi) - Clamp(client - offset, hi) == d
  {
  }

  /** Pressing on the player and moving the mouse nowhere leaves it where it
      was, when it was inside the allowed area. */
  lemma GrabInPlace(clientX: int, clientY: int, left: int, top: int, width: int, height: int)
    requires 0 <= left <= width - PlayerWidth && 0 <= top <= height - PlayerHeight
    ensures Clamp(clientX - (clientX - left), width - PlayerWidth) == left
    ensures Clamp(clientY - (clientY - top), height - PlayerHeight) == top
  {
  }

  /** `handleResize`'s update of one coordinate: `Math.min(v, limit)`. */
  function Shrink(v: int, limit: int): (r: int)
    ensures r <= v && r <= limit
    ensures v <= limit ==> r == v
    ensures v > limit ==> r == limit
  {
    Min(v, limit)
  }

  /** A second resize to the same window moves nothing. */
  lemma ShrinkIdempotent(v: int, limit: int)
    ensures Shrink(Shrink(v, limit), limit) == Shrink(v, limit)
  {
  }

  /** A position a drag produced for a window at least as wide (high) as the
      player survives a resize to that window unchanged. */
  lemma ShrinkAfterDrag(v: int, limit: int)
    requires limit >= 0
    ensures Shrink(Clamp(v, limit), limit) == Clamp(v, limit)
  {
  }

  /** Resizes only ever move the player up and left, and resizing to a smaller
      window and then to a larger one leaves it where the smaller one put it. */
  lemma ShrinkMonotone(v: int, small: int, large: int)
    requires small <= large
    ensures Shrink(Shrink(v, small), large) == Shrink(v, small)
    ensures Shrink(Shrink(v, large), small) == Shrink(v, small)
  {
  }

  class DraggablePlayer {
    var x: int
    var y: int
    var isDragging: bool
    var offsetX: int
    var offsetY: int
    var isExpanded: bool
    var isPlaying: bool
    var iframeVisible: bool
    /** `lastPositionRef`: where the last drag move put the player. */
    var lastX: int
    var lastY: int

    /** Mounting in a window `height` pixels high: near the bottom-left corner,
        collapsed, playing. */
    constructor (height: int)
      ensures x == 20 && y == height - 300
      ensures !isDragging && offsetX == 0 && offsetY == 0
      ensures !isExpanded && isPlaying && iframeVisible
      ensures lastX == 20 && lastY == height - 120
    {
      x, y := 20, height - 300;
      isDragging := false;
      offsetX, offsetY := 0, 0;
      isExpanded, isPlaying, iframeVisible := false, true, true;
      lastX, lastY := 20, height - 120;
    }

    /** `handleResize`: pull the player back inside a `width` by `height` window. */
    method Resize(width: int, height: int)
      modifies this
      ensures x == Shrink(old(x), width - PlayerWidth) && y == Shrink(old(y), height - PlayerHeight)
      ensures isDragging == old(isDragging) && offsetX == old(offsetX) && offsetY == old(offsetY)
      ensures isExpanded == old(isExpanded) && isPlaying == old(isPlaying) && iframeVisible == old(iframeVisible)
      ensures lastX == old(lastX) && lastY == old(lastY)
    {
      x := Min(x, width - PlayerWidth);
      y := Min(y, height - PlayerHeight);
    }

    /** `handleMouseDown` at client point `(clientX, clientY)` on an element whose
        top-left corner is `(left, top)`; without a rendered element
        (`hasElement` false) nothing happens. */
    method MouseDown(hasElement: bool, clientX: int, clientY: int, left: int, top: int)
      modifies this
      ensures hasElement ==> isDragging && offsetX == clientX - left && offsetY == clientY - top
      ensures !hasElement ==> isDragging == old(isDragging) && offsetX == old(offsetX) && offsetY == old(offsetY)
      ensures x == old(x) && y == old(y)
      ensures isExpanded == old(isExpanded) && isPlaying == old(isPlaying) && iframeVisible == old(iframeVisible)
      ensures lastX == old(lastX) && lastY == old(lastY)
    {
      if hasElement {
        offsetX := clientX - left;
        offsetY := clientY - top;
        isDragging := true;
      }
    }

    /** `handleMouseMove` to client point `(clientX, clientY)` in a `width` by
        `height` window, with its animation frame run at once. */
    method MouseMove(clientX: int, clientY: int, width: int, height: int)
      modifies this
      ensures old(isDragging) ==>
        && x == Clamp(clientX - offsetX, width - PlayerWidth)
        && y == Clamp(clientY - offsetY, height - PlayerHeight)
        && lastX == x && lastY == y
      ensures !old(isDragging) ==> x == old(x) && y == old(y) && lastX == old(lastX) && lastY == old(lastY)
      ensures isDragging == old(isDragging) && offsetX == old(offsetX) && offsetY == old(offsetY)
      ensures isExpanded == old(isExpanded) && isPlaying == old(isPlaying) && iframeVisible == old(iframeVisible)
    {
      if isDragging {
        var newX := Max(0, Min(clientX - offsetX, width - PlayerWidth));
        var newY := Max(0, Min(clientY - offsetY, height - PlayerHeight));
        x, y := newX, newY;
        lastX, lastY := newX, newY;
      }
    }

    /** `handleMouseUp`: the drag ends where the player is. */
    method MouseUp()
      modifies this
      ensures !isDragging
      ensures x == old(x) && y == old(y) && offsetX == old(offsetX) && offsetY == old(offsetY)
      ensures isExpanded == old(isExpanded) && isPlaying == old(isPlaying) && iframeVisible == old(iframeVisible)
      ensures lastX == old(lastX) && lastY == old(lastY)
    {
      isDragging := false;
    }

    /** `toggleExpanded`: flips between the vinyl alone and the full player; the
        embedded player stays mounted either way, so the music goes on. */
    method ToggleExpanded()
      modifies this
      ensures isExpanded == !old(isExpanded) && iframeVisible
      ensures x == old(x) && y == old(y) && isDragging == old(isDragging)
      ensures offsetX == old(offsetX) && offsetY == old(offsetY) && isPlaying == old(isPlaying)
      ensures lastX == old(lastX) && lastY == old(lastY)
    {
      isExpanded := !isExpanded;
      iframeVisible := true;
    }
  }

  /** A whole drag: press at one point, move to another, release. The player
      ends inside the window, where the mouse put it, and no longer dragging. */
  method Drag(p: DraggablePlayer, left: int, top: int, fromX: int, fromY: int, toX: int, toY: int,
              width: int, height: int)
    requires width >= PlayerWidth && height >= PlayerHeight
    modifies p
    ensures !p.isDragging
    ensures 0 <= p.x <= width - PlayerWidth && 0 <= p.y <= height - PlayerHeight
    ensures p.x == Clamp(left + (toX - fromX), width - PlayerWidth)
    ensures p.y == Clamp(top + (toY - fromY), height - PlayerHeight)
    ensures p.lastX == p.x && p.lastY == p.y
    ensures p.isExpanded == old(p.isExpanded) && p.iframeVisible == old(p.iframeVisible)
  {
    p.MouseDown(true, fromX, fromY, left, top);
    p.MouseMove(toX, toY, width, height);
    p.MouseUp();
  }
}
