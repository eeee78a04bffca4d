/**
 * The viewport arithmetic of `DOMDisplay.scrollPlayerIntoView`: the scroll
 * offsets are moved so that the player's centre stays a margin away from the
 * edges of the visible part of the level.
 */
module Display {
  import opened Wrappers
  import opened Vectors
  import Actors
  import States

  /** Pixels per level unit. */
  const Scale: real := 20.0

  /**
   * The centre of an actor's box, in pixels: the pixel corner the box is
   * drawn at plus half its pixel size.
   */
  function Center(a: Actors.Actor): (c: Vec)
    ensures c.x / Scale == a.pos.x + a.Size().x / 2.0
    ensures c.y / Scale == a.pos.y + a.Size().y / 2.0
    ensures c == a.pos.Times(Scale).Plus(a.Size().Times(Scale).Times(0.5))
  {
    TimesDistributes(a.pos, a.Size().Times(0.5), Scale);
    a.pos.Plus(a.Size().Times(0.5)).Times(Scale)
  }

  /** The margin: a third of the viewport's width, used on both axes. */
  function Margin(width: real): (m: real)
    ensures 3.0 * m == width
    ensures width >= 0.0 ==> 0.0 <= m <= width
  {
    width / 3.0
  }

  /** The values assigned to `scrollLeft` and `scrollTop`; `None` where nothing is assigned. */
  datatype Scroll = Scroll(left: Option<real>, top: Option<real>)

  predicate InHorizontalBand(width: real, left: real, c: Vec) {
    left + Margin(width) <= c.x <= left + width - Margin(width)
  }

  predicate InVerticalBand(width: real, height: real, top: real, c: Vec) {
    top + Margin(width) <= c.y <= top + height - Margin(width)
  }

  /**
   * The scroll adjustment as the code is written. Nothing is assigned on an
   * axis where the centre is inside its band. Scrolling right or up or down
   * leaves the centre exactly one margin inside the edge it crossed. The left
   * branch is the chained assignment `scrollLeft = center.x = margin`: it
   * sets the offset to the margin itself, wherever the player is.
   */
  function ScrollAdjust(width: real, height: real, left: real, top: real, c: Vec): (s: Scroll)
    ensures s.left.None? <==> InHorizontalBand(width, left, c)
    ensures s.top.None? <==> InVerticalBand(width, height, top, c)
    ensures c.x < left + Margin(width) ==> s.left == Some(Margin(width))
    ensures c.x >= left + Margin(width) && s.left.Some? ==> c.x == s.left.value + width - Margin(width)
    ensures c.y < top + Margin(width) ==> c.y == s.top.value + Margin(width)
    ensures c.y >= top + Margin(width) && s.top.Some? ==> c.y == s.top.value + height - Margin(width)
  {
    var margin := Margin(width);
    var newLeft :=
      if c.x < left + margin then Some(margin)
      else if c.x > left + width - margin then Some(c.x + margin - width)
      else None;
    var newTop :=
      if c.y < top + margin then Some(c.y - margin)
      else if c.y > top + height - margin then Some(c.y + margin - height)
      else None;
    Scroll(newLeft, newTop)
  }

  /**
   * The left branch as evidently intended, `scrollLeft = center.x - margin`:
   * whichever way it scrolls, the centre ends inside the horizontal band.
   */
  function ScrollAdjustIntended(width: real, height: real, left: real, top: real, c: Vec): (s: Scroll)
    ensures s.left.None? <==> InHorizontalBand(width, left, c)
    ensures s.top == ScrollAdjust(width, height, left, top, c).top
    ensures width >= 0.0 ==> InHorizontalBand(width, s.left.GetOr(left), c)
    ensures c.x >= left + Margin(width) ==> s.left == ScrollAdjust(width, height, left, top, c).left
  {
    var s := ScrollAdjust(width, height, left, top, c);
    if c.x < left + Margin(width) then Scroll(Some(c.x - Margin(width)), s.top) else s
  }

  /** With the player inside both bands, nothing is assigned. */
  lemma NoScrollInsideMargins(width: real, height: real, left: real, top: real, c: Vec)
    requires InHorizontalBand(width, left, c) && InVerticalBand(width, height, top, c)
    ensures ScrollAdjust(width, height, left, top, c) == Scroll(None, None)
  {
  }

  /**
   * After a vertical scroll, a second adjustment leaves `scrollTop` alone
   * exactly when the viewport is at least two margins (two thirds of its
   * width) tall; in a flatter viewport the offset jumps back and forth.
   */
  lemma VerticalScrollSettles(width: real, height: real, left: real, top: real, c: Vec)
    requires width >= 0.0
    requires ScrollAdjust(width, height, left, top, c).top.Some?
    ensures var t := ScrollAdjust(width, height, left, top, c).top.value;
      ScrollAdjust(width, height, left, t, c).top.None? <==> 3.0 * height >= 2.0 * width
  {
  }

  /** After a scroll to the right, a second adjustment leaves `scrollLeft` alone. */
  lemma RightScrollSettles(width: real, height: real, left: real, top: real, c: Vec)
    requires width >= 0.0
    requires c.x > left + width - Margin(width) && c.x >= left + Margin(width)
    ensures var l := ScrollAdjust(width, height, left, top, c).left.value;
      ScrollAdjust(width, height, l, top, c).left.None?
  {
  }

  /**
   * As written, a scroll to the left brings the centre into the band only when
   * it lies between two margins and a full viewport width from the level's
   * left edge; a player nearer to that edge is left short of the margin.
   */
  lemma LeftScrollAsWritten(width: real, height: real, left: real, top: real, c: Vec)
    requires c.x < left + Margin(width)
    ensures var l := ScrollAdjust(width, height, left, top, c).left.value;
      InHorizontalBand(width, l, c) <==> 2.0 * Margin(width) <= c.x <= width
  {
  }

  /**
   * A concrete case: a 300-pixel-wide viewport scrolled to 500 with the
   * player's centre at x = 100. The code scrolls to 100, putting the centre on
   * the viewport's left edge; the intended offset is 0.
   */
  lemma LeftScrollCounterexample()
    ensures var c := Vec(100.0, 150.0);
      && ScrollAdjust(300.0, 300.0, 500.0, 0.0, c).left == Some(100.0)
      && !InHorizontalBand(300.0, 100.0, c)
      && ScrollAdjustIntended(300.0, 300.0, 500.0, 0.0, c).left == Some(0.0)
  {
  }

  /**
   * The display's wrapping element, reduced to the four numbers the scroll
   * adjustment reads and writes.
   */
  class DomDisplay {
    var clientWidth: real
    var clientHeight: real
    var scrollLeft: real
    var scrollTop: real

    /** A freshly attached display: its size is what the browser laid out, scrolled to the origin. */
    constructor (clientWidth: real, clientHeight: real)
      ensures this.clientWidth == clientWidth && this.clientHeight == clientHeight
      ensures scrollLeft == 0.0 && scrollTop == 0.0
    {
      this.clientWidth := clientWidth;
      this.clientHeight := clientHeight;
      scrollLeft := 0.0;
      scrollTop := 0.0;
    }

    /**
     * `scrollPlayerIntoView`. `ok` is false where the code throws a TypeError
     * because the state has no player; nothing has been assigned by then.
     */
    method ScrollPlayerIntoView(state: States.State) returns (ok: bool)
      modifies this`scrollLeft, this`scrollTop
      ensures ok <==> state.Player().Some?
      ensures !ok ==> scrollLeft == old(scrollLeft) && scrollTop == old(scrollTop)
      ensures ok ==>
        var s := ScrollAdjust(clientWidth, clientHeight, old(scrollLeft), old(scrollTop), Center(state.Player().value));
        scrollLeft == s.left.GetOr(old(scrollLeft)) && scrollTop == s.top.GetOr(old(scrollTop))
    {
      var width := clientWidth;
      var height := clientHeight;
      var margin := width / 3.0;
      var left, right := scrollLeft, scrollLeft + width;
      var top, bottom := scrollTop, scrollTop + height;

      var player := state.Player();
      if player.None? {
        return false;
      }
      var center := player.value.pos.Plus(player.value.Size().Times(0.5)).Times(Scale);

      if center.x < left + margin {
        scrollLeft := margin;
      } else if center.x > right - margin {
        scrollLeft := center.x + margin - width;
      }

      if center.y < top + margin {
        scrollTop := center.y - margin;
      } else if center.y > bottom - margin {
        scrollTop := center.y + margin - height;
      }
      ok := true;
    }
  }
}
