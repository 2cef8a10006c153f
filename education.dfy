/** The education section (`section-education`): a sticky column of
    blocks whose active entry follows the scroll position, with the first
    and last block forced at the two ends of the scroll range, and a
    picker that selects an entry directly. Element geometry arrives as
    plain numbers. */
module Education {
  import opened Common

  /** The vertical extent of a block or of the scrolling viewport. */
  datatype Rect = Rect(top: real, height: real)

  /** The point of a block that is compared with the viewport's middle:
      `midFactor` of the way down the block. */
  function Anchor(r: Rect, midFactor: real): (a: real)
    ensures r.height >= 0.0 && 0.0 <= midFactor <= 1.0 ==> r.top <= a <= r.top + r.height
  {
    if r.height >= 0.0 && 0.0 <= midFactor <= 1.0 then
      MulNonNeg(r.height, midFactor);
      MulNonNeg(r.height, 1.0 - midFactor);
      r.top + r.height * midFactor
    else r.top + r.height * midFactor
  }

  /** How far each block's anchor lies from the middle of `viewport`. */
  function Distances(blocks: seq<Rect>, viewport: Rect, midFactor: real): (ds: seq<real>)
    ensures |ds| == |blocks|
    ensures forall i :: 0 <= i < |ds| ==> ds[i] >= 0.0
    ensures forall i :: 0 <= i < |ds| ==>
              ds[i] == Abs(viewport.top + viewport.height * 0.5 - Anchor(blocks[i], midFactor))
  {
    if blocks == [] then []
    else [Abs(viewport.top + viewport.height * 0.5 - Anchor(blocks[0], midFactor))]
         + Distances(blocks[1..], viewport, midFactor)
  }

  /** `Number.POSITIVE_INFINITY` or a finite distance. */
  datatype Extended = PosInfinity | Finite(v: real) {
    /** `d < this`. */
    predicate Above(d: real) {
      PosInfinity? || d < v
    }
  }

  /** The scan of `updateActiveFromBlocks`: one pass over the blocks,
      replacing the best index only on a strictly smaller distance. */
  method ClosestBlock(blocks: seq<Rect>, viewport: Rect, midFactor: real) returns (bestIndex: nat)
    requires |blocks| > 0
    ensures FirstMinimum(Distances(blocks, viewport, midFactor), bestIndex)
  {
    var ds := Distances(blocks, viewport, midFactor);
    var containerMid := viewport.top + viewport.height * 0.5;
    bestIndex := 0;
    var bestDistance := PosInfinity;
    var idx := 0;
    while idx < |blocks|
      invariant 0 <= idx <= |blocks| && bestIndex < |blocks|
      invariant idx == 0 <==> bestDistance == PosInfinity
      invariant idx > 0 ==> bestIndex < idx && bestDistance == Finite(ds[bestIndex])
      invariant forall j :: 0 <= j < idx ==> ds[bestIndex] <= ds[j]
      invariant forall j :: 0 <= j < bestIndex ==> ds[bestIndex] < ds[j]
    {
      var elMid := Anchor(blocks[idx], midFactor);
      var dist := Abs(containerMid - elMid);
      if bestDistance.Above(dist) {
        bestDistance := Finite(dist);
        bestIndex := idx;
      }
      idx := idx + 1;
    }
  }

  /** Where a click in the picker sends the page. */
  datatype ScrollRequest =
    | NoScroll
      /** `scrollIntoView` on the block, page scrolling mode. */
    | IntoView(index: nat)
      /** `scrollTo` on the sticky column, to just above the block. */
    | ContainerTo(top: real)

  /** The scroll positions at which the ends of the list take over. */
  const TopSlack: real := 2.0
  const BottomSlack: real := 8.0

  /** Within 2 px of the top: an unscrolled column always is. */
  predicate AtTop(scrollTop: real)
    ensures scrollTop <= 0.0 ==> AtTop(scrollTop)
    ensures AtTop(scrollTop) <==> scrollTop <= TopSlack
  {
    scrollTop <= TopSlack
  }

  /** Within 8 px of the bottom. Both ends at once happen only for a
      column that is at most 10 px taller than its viewport. */
  predicate AtBottom(scrollTop: real, clientHeight: real, scrollHeight: real)
    ensures scrollTop >= 0.0 && scrollHeight <= clientHeight + BottomSlack ==> AtBottom(scrollTop, clientHeight, scrollHeight)
    ensures AtBottom(scrollTop, clientHeight, scrollHeight) && AtTop(scrollTop) ==>
              scrollHeight <= clientHeight + TopSlack + BottomSlack
  {
    scrollTop + clientHeight >= scrollHeight - BottomSlack
  }

  /** The fraction of a block's height used as its anchor while scrolling. */
  const ScrollMidFactor: real := 0.35

  class EducationSection {
    var activeIndex: int
    var useBodyScroll: bool
    /** Whether a window-scroll frame is already requested. */
    var rafPending: bool
    /** Requests handed to the browser by `selectIndex`. */
    var scrollRequests: seq<ScrollRequest>

    constructor ()
      ensures activeIndex == 0 && !useBodyScroll && !rafPending && scrollRequests == []
    {
      activeIndex := 0;
      useBodyScroll := false;
      rafPending := false;
      scrollRequests := [];
    }

    /** `updateActiveFromBlocks`: the first block whose anchor is nearest
        the middle of `viewport` becomes active; no blocks, no change. */
    method UpdateActiveFromBlocks(blocks: seq<Rect>, viewport: Rect, midFactor: real)
      modifies this`activeIndex
      ensures blocks == [] ==> activeIndex == old(activeIndex)
      ensures blocks != [] ==> FirstMinimum(Distances(blocks, viewport, midFactor), activeIndex)
    {
      if |blocks| == 0 {
        return;
      }
      var bestIndex := ClosestBlock(blocks, viewport, midFactor);
      if bestIndex != activeIndex {
        activeIndex := bestIndex;
      }
    }

    /** `onScroll` of the sticky column: the top of the range selects the
        first block, the bottom the last, anything between the nearest. */
    method OnScroll(scrollTop: real, clientHeight: real, scrollHeight: real,
                    blocks: seq<Rect>, containerRect: Rect)
      modifies this`activeIndex
      ensures blocks == [] ==> activeIndex == old(activeIndex)
      ensures blocks != [] && AtTop(scrollTop) ==> activeIndex == 0
      ensures blocks != [] && !AtTop(scrollTop) && AtBottom(scrollTop, clientHeight, scrollHeight) ==>
                activeIndex == |blocks| - 1
      ensures blocks != [] && !AtTop(scrollTop) && !AtBottom(scrollTop, clientHeight, scrollHeight) ==>
                FirstMinimum(Distances(blocks, containerRect, ScrollMidFactor), activeIndex)
    {
      if |blocks| == 0 {
        return;
      }
      if scrollTop <= TopSlack {
        if activeIndex != 0 {
          activeIndex := 0;
        }
        return;
      }
      var scrollBottom := scrollTop + clientHeight;
      if scrollBottom >= scrollHeight - BottomSlack {
        var lastIndex := |blocks| - 1;
        if activeIndex != lastIndex {
          activeIndex := lastIndex;
        }
        return;
      }
      UpdateActiveFromBlocks(blocks, containerRect, ScrollMidFactor);
    }

    /** `onWindowScroll`: the window itself is the viewport. */
    method OnWindowScroll(blocks: seq<Rect>, innerHeight: real)
      modifies this`activeIndex
      ensures blocks == [] ==> activeIndex == old(activeIndex)
      ensures blocks != [] ==>
                FirstMinimum(Distances(blocks, Rect(0.0, innerHeight), ScrollMidFactor), activeIndex)
    {
      UpdateActiveFromBlocks(blocks, Rect(0.0, innerHeight), ScrollMidFactor);
    }

    /** A window scroll event in page scrolling mode: at most one frame is
        requested until it fires. */
    method WindowScrolled()
      modifies this`rafPending
      ensures rafPending
    {
      if rafPending {
        return;
      }
      rafPending := true;
    }

    /** The requested frame fires and re-evaluates the active block. */
    method WindowFrame(blocks: seq<Rect>, innerHeight: real)
      requires rafPending
      modifies this`rafPending, this`activeIndex
      ensures !rafPending
      ensures blocks == [] ==> activeIndex == old(activeIndex)
      ensures blocks != [] ==>
                FirstMinimum(Distances(blocks, Rect(0.0, innerHeight), ScrollMidFactor), activeIndex)
    {
      rafPending := false;
      OnWindowScroll(blocks, innerHeight);
    }

    /** `selectIndex(index)`: `hasContainer` says whether the sticky column
        exists, `offsetTops` lists its blocks' `offsetTop`. The entry
        becomes active on every path; a scroll is requested only when the
        block exists. */
    method SelectIndex(index: int, hasContainer: bool, offsetTops: seq<real>)
      modifies this`activeIndex, this`scrollRequests
      ensures activeIndex == index
      ensures !hasContainer || !(0 <= index < |offsetTops|) ==> scrollRequests == old(scrollRequests)
      ensures hasContainer && 0 <= index < |offsetTops| && useBodyScroll ==>
                scrollRequests == old(scrollRequests) + [IntoView(index)]
      ensures hasContainer && 0 <= index < |offsetTops| && !useBodyScroll ==>
                scrollRequests == old(scrollRequests) + [ContainerTo(offsetTops[index] - 10.0)]
    {
      if !hasContainer {
        activeIndex := index;
        return;
      }
      if !(0 <= index < |offsetTops|) {
        activeIndex := index;
        return;
      }
      if useBodyScroll {
        scrollRequests := scrollRequests + [IntoView(index)];
      } else {
        var top := offsetTops[index] - 10.0;
        scrollRequests := scrollRequests + [ContainerTo(top)];
      }
      activeIndex := index;
    }

    /** `ngAfterViewInit`: page scrolling is chosen on a narrow layout when
        the column exists; the matching handler then runs once. */
    method AfterViewInit(hasContainer: bool, mobileLayout: bool,
                         scrollTop: real, clientHeight: real, scrollHeight: real,
                         blocks: seq<Rect>, containerRect: Rect, innerHeight: real)
      modifies this`useBodyScroll, this`activeIndex
      ensures hasContainer ==> useBodyScroll == mobileLayout
      ensures !hasContainer ==> useBodyScroll == old(useBodyScroll)
      ensures blocks == [] ==> activeIndex == old(activeIndex)
      ensures blocks != [] && useBodyScroll ==>
                FirstMinimum(Distances(blocks, Rect(0.0, innerHeight), ScrollMidFactor), activeIndex)
      ensures !hasContainer && !useBodyScroll ==> activeIndex == old(activeIndex)
      ensures blocks != [] && hasContainer && !useBodyScroll && AtTop(scrollTop) ==> activeIndex == 0
      ensures blocks != [] && hasContainer && !useBodyScroll && !AtTop(scrollTop) &&
              AtBottom(scrollTop, clientHeight, scrollHeight) ==>
                activeIndex == |blocks| - 1
      ensures blocks != [] && hasContainer && !useBodyScroll && !AtTop(scrollTop) &&
              !AtBottom(scrollTop, clientHeight, scrollHeight) ==>
                FirstMinimum(Distances(blocks, containerRect, ScrollMidFactor), activeIndex)
    {
      if hasContainer {
        useBodyScroll := mobileLayout;
        if !useBodyScroll {
          OnScroll(scrollTop, clientHeight, scrollHeight, blocks, containerRect);
        }
      }
      if useBodyScroll {
        OnWindowScroll(blocks, innerHeight);
      }
    }
  }
}
