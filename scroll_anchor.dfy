/**
 * The scroll-anchoring rule of the log view, on values.
 *
 * After every layout the view is moved to the bottom of the list exactly when
 * the scroll height recorded by the previous layout equals the current
 * `scrollTop + clientHeight`; the pass then records the current scroll
 * height. The view keeps no "pinned" flag: whether it follows new entries is
 * read off the geometry each time. Geometry is integral here.
 */
module ScrollAnchor {

  /** What a layout pass reads of the list element. */
  datatype Geometry = Geometry(scrollTop: int, clientHeight: int, scrollHeight: int)

  /** The visible window ends at the end of the content. */
  predicate AtBottom(g: Geometry) {
    g.scrollTop + g.clientHeight == g.scrollHeight
  }

  /** The element's geometry after one layout pass, given the height recorded by the previous pass. */
  function Anchor(recorded: int, g: Geometry): (r: Geometry)
    ensures r.clientHeight == g.clientHeight && r.scrollHeight == g.scrollHeight
    ensures recorded == g.scrollTop + g.clientHeight ==> AtBottom(r)
    ensures recorded != g.scrollTop + g.clientHeight ==> r == g
  {
    if recorded == g.scrollTop + g.clientHeight then g.(scrollTop := g.scrollHeight - g.clientHeight) else g
  }

  /** The recorded height and the scroll offset, between two layout passes; the client height is fixed. */
  datatype View = View(recorded: int, scrollTop: int)

  /** A view whose window ends exactly at the recorded height: the next pass will pin it. */
  predicate Pinned(v: View, clientHeight: int) {
    v.recorded == v.scrollTop + clientHeight
  }

  /** One layout pass over content of height `h`, the user not scrolling in between. */
  function Pass(v: View, clientHeight: int, h: int): (r: View)
    ensures r.recorded == h
  {
    View(h, Anchor(v.recorded, Geometry(v.scrollTop, clientHeight, h)).scrollTop)
  }

  /** Layout passes over the successive content heights `heights`. */
  function Passes(v: View, clientHeight: int, heights: seq<int>): (r: View)
    decreases |heights|
  {
    if heights == [] then v else Passes(Pass(v, clientHeight, heights[0]), clientHeight, heights[1..])
  }

  /** A pinned view stays pinned and ends at the bottom of the last content, however many batches arrive. */
  lemma {:induction false} PinnedFollowsContent(v: View, clientHeight: int, heights: seq<int>)
    requires Pinned(v, clientHeight)
    requires heights != []
    ensures Pinned(Passes(v, clientHeight, heights), clientHeight)
    ensures Passes(v, clientHeight, heights).scrollTop + clientHeight == heights[|heights| - 1]
    decreases |heights|
  {
    var next := Pass(v, clientHeight, heights[0]);
    assert Pinned(next, clientHeight);
    if |heights| > 1 {
      PinnedFollowsContent(next, clientHeight, heights[1..]);
    }
  }

  /**
   * A view scrolled up above the recorded height keeps its offset while the
   * content only grows: the log list never shrinks.
   */
  lemma {:induction false} ScrolledUpStaysPut(v: View, clientHeight: int, heights: seq<int>)
    requires v.scrollTop + clientHeight < v.recorded
    requires heights != [] ==> v.recorded <= heights[0]
    requires forall i, j :: 0 <= i < j < |heights| ==> heights[i] <= heights[j]
    ensures Passes(v, clientHeight, heights).scrollTop == v.scrollTop
    ensures !Pinned(Passes(v, clientHeight, heights), clientHeight)
    decreases |heights|
  {
    if heights != [] {
      var next := Pass(v, clientHeight, heights[0]);
      assert next.scrollTop == v.scrollTop;
      ScrolledUpStaysPut(next, clientHeight, heights[1..]);
    }
  }
}
