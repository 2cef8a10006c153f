/** The project carousel (`stagger-testimonials`): a ring of cards with one
    active card in front, neighbours fanned out by their signed distance
    from it, click and swipe navigation. */
module Carousel {
  import opened Common

  // ------------------------------------------------------------ index ring

  /** JavaScript's `%` on integers: the remainder takes the sign of the
      dividend (Dafny's own `%` never goes negative), so it is either the
      mathematical residue or that residue minus the divisor. */
  function JsRem(a: int, n: int): (r: int)
    requires n > 0
    ensures -n < r < n
    ensures a >= 0 ==> r == a % n
    ensures a < 0 ==> r <= 0 && (r == a % n || r == a % n - n)
  {
    if a >= 0 then a % n
    else
      NegatedResidue(a, n);
      -((-a) % n)
  }

  /** How the residues of `a` and `-a` relate. */
  lemma NegatedResidue(a: int, n: int)
    requires n > 0
    ensures (-a) % n == 0 ==> a % n == 0
    ensures (-a) % n != 0 ==> a % n == n - (-a) % n
  {
    var q2, r2 := (-a) / n, (-a) % n;
    assert -a == n * q2 + r2;
    if r2 == 0 {
      assert a == n * (-q2) + 0;
      ModUnique(a, n, -q2, 0);
    } else {
      assert a == n * (-q2 - 1) + (n - r2);
      ModUnique(a, n, -q2 - 1, n - r2);
    }
  }

  /** Euclidean division has one remainder. */
  lemma ModUnique(a: int, n: int, q: int, r: int)
    requires n > 0 && 0 <= r < n && a == n * q + r
    ensures a % n == r
  {
    var q', r' := a / n, a % n;
    assert a == n * q' + r';
    assert n * (q - q') == r' - r;
    if q - q' >= 1 {
      MulAtLeast(n, q - q');
    } else if q - q' <= -1 {
      MulAtLeast(n, q' - q);
    }
  }

  lemma MulAtLeast(n: int, k: int)
    requires n > 0 && k >= 1
    ensures n * k >= n
  {
  }

  /** The `activeIndex` that `move(steps)` leaves behind over `len` cards:
      a truncating remainder followed by a single `+ len` fix-up lands on
      the mathematical residue of `active + steps`. */
  function MoveIndex(active: int, steps: int, len: nat): (r: int)
    ensures len == 0 || steps == 0 ==> r == active
    ensures len > 0 && steps != 0 ==> 0 <= r < len && r == (active + steps) % len
  {
    if len == 0 || steps == 0 then active
    else
      var m := JsRem(active + steps, len);
      if m < 0 then m + len else m
  }

  /** `getPosition(index)`: the signed slot of card `index` relative to the
      active card, wrapped into `[-floor(len/2), floor(len/2)]`. */
  function Position(index: int, active: int, len: nat): (pos: int)
    ensures len == 0 ==> pos == 0
    ensures 0 <= index < len && 0 <= active < len ==>
              -(len / 2) <= pos <= len / 2 &&
              (pos - (index - active)) % len == 0 &&
              (pos == 0 <==> index == active)
  {
    if len == 0 then 0
    else
      var half := len / 2;
      var p0 := index - active;
      var p1 := if p0 > half then p0 - len else p0;
      if p1 < -half then p1 + len else p1
  }

  /** No two cards share a slot: `getPosition` is injective on the cards. */
  lemma {:induction false} PositionInjective(i: int, j: int, active: int, len: nat)
    requires 0 <= i < len && 0 <= j < len && 0 <= active < len
    requires Position(i, active, len) == Position(j, active, len)
    ensures i == j
  {
    var p := Position(i, active, len);
    // Each position differs from the raw difference by -len, 0 or +len.
    assert p == i - active || p == i - active - len || p == i - active + len;
    assert p == j - active || p == j - active - len || p == j - active + len;
  }

  /** `isVisible(pos)`: only the active card and two neighbours per side. */
  predicate IsVisible(pos: int)
    ensures IsVisible(pos) <==> -2 <= pos <= 2
  {
    AbsInt(pos) <= 2
  }

  // ------------------------------------------------------------ card style

  /** The style values `cardStyle(i)` computes for a card in slot `pos`;
      `width`/`height` are both `cardSize`. */
  datatype CardStyle = CardStyle(
    size: real, x: real, y: int, rot: int,
    scale: real, opacity: real, blur: int, filter: string, zIndex: int)

  function StyleForSlot(pos: int, cardSize: real): (s: CardStyle)
    ensures s.size == cardSize
    ensures s.x == cardSize / 1.35 * pos as real
    ensures s.zIndex == 50 - AbsInt(pos)
    ensures s.rot == 0 <==> pos == 0
    ensures s.filter == "none" <==> AbsInt(pos) <= 1
  {
    var abs := AbsInt(pos);
    var y := if pos == 0 then -40 else if JsRem(pos, 2) != 0 then 18 else -18;
    var rot := if pos == 0 then 0 else if pos > 0 then 3 else -3;
    var scale := if abs == 0 then 1.0 else if abs == 1 then 0.92 else 0.84;
    var opacity := if abs == 0 then 1.0 else if abs == 1 then 0.72 else 0.45;
    var blur := if abs == 0 then 0 else if abs == 1 then 0 else 1;
    CardStyle(cardSize, cardSize / 1.35 * pos as real, y, rot, scale, opacity, blur,
              if blur != 0 then "blur(1px) saturate(0.9)" else "none", 50 - abs)
  }

  /** `cardStyle(i)`: the style of card `i` given the active card. */
  function CardStyleAt(i: int, active: int, len: nat, cardSize: real): (s: CardStyle)
    ensures s.size == cardSize
    ensures 0 <= i < len && i == active ==>
              s.x == 0.0 && s.rot == 0 && s.zIndex == 50 && s.filter == "none"
    ensures 0 <= i < len && 0 <= active < len && i != active ==>
              s.rot != 0 && s.zIndex < 50
  {
    StyleForSlot(Position(i, active, len), cardSize)
  }

  /** Cards further from the front are never larger, more opaque or higher
      in the stacking order than nearer ones. */
  lemma {:induction false} StyleMonotone(p: int, q: int, cardSize: real)
    requires AbsInt(p) <= AbsInt(q)
    ensures StyleForSlot(p, cardSize).scale >= StyleForSlot(q, cardSize).scale
    ensures StyleForSlot(p, cardSize).opacity >= StyleForSlot(q, cardSize).opacity
    ensures StyleForSlot(p, cardSize).blur <= StyleForSlot(q, cardSize).blur
    ensures StyleForSlot(p, cardSize).zIndex >= StyleForSlot(q, cardSize).zIndex
  {
  }

  /** The active card is strictly on top of every other card. */
  lemma {:induction false} ActiveCardOnTop(i: int, active: int, len: nat, cardSize: real)
    requires 0 <= i < len && 0 <= active < len && i != active
    ensures CardStyleAt(i, active, len, cardSize).zIndex < CardStyleAt(active, active, len, cardSize).zIndex
  {
    assert Position(active, active, len) == 0;
    assert Position(i, active, len) != 0;
  }

  // ------------------------------------------------------------ the component

  datatype PointerEvent = PointerEvent(
    pointerType: string, button: int, pointerId: int, clientX: real, clientY: real)

  /** Horizontal travel (in px) a pointer must cover before it counts as a swipe. */
  const SwipeThreshold: real := 28.0

  /** The step a horizontal swipe asks for: leftwards advances. */
  function SwipeStep(dx: real): (step: int)
    ensures step == 1 || step == -1
    ensures step == 1 <==> dx < 0.0
  {
    if dx < 0.0 then 1 else -1
  }

  class StaggerTestimonials {
    /** `cards.length`: the card list is read-only. */
    const count: nat
    var cardSize: real
    var activeIndex: int
    var pointerDown: bool
    var pointerId: Option<int>
    var startX: real
    var startY: real
    var swiped: bool

    /** The active index always names a card (it stays 0 when there are none). */
    ghost predicate Valid()
      reads this
    {
      if count == 0 then activeIndex == 0 else 0 <= activeIndex < count
    }

    constructor (count: nat)
      ensures Valid()
      ensures this.count == count && cardSize == 365.0 && activeIndex == 0
      ensures !pointerDown && pointerId == None && startX == 0.0 && startY == 0.0 && !swiped
    {
      this.count := count;
      cardSize := 365.0;
      activeIndex := 0;
      pointerDown := false;
      pointerId := None;
      startX, startY := 0.0, 0.0;
      swiped := false;
    }

    /** `updateSize`: the card edge follows the `(min-width: 640px)` query. */
    method UpdateSize(wide: bool)
      modifies this`cardSize
      ensures cardSize == if wide then 365.0 else 290.0
    {
      cardSize := if wide then 365.0 else 290.0;
    }

    method Move(steps: int)
      requires Valid()
      modifies this`activeIndex
      ensures Valid()
      ensures activeIndex == MoveIndex(old(activeIndex), steps, count)
    {
      var len := count;
      if len == 0 || steps == 0 {
        return;
      }
      activeIndex := JsRem(activeIndex + steps, len);
      if activeIndex < 0 {
        activeIndex := activeIndex + len;
      }
    }

    /** Clicking a side card moves one step towards it; the front card is inert. */
    method OnCardClick(pos: int)
      requires Valid()
      modifies this`activeIndex
      ensures Valid()
      ensures pos == 0 ==> activeIndex == old(activeIndex)
      ensures pos != 0 ==> activeIndex == MoveIndex(old(activeIndex), if pos > 0 then 1 else -1, count)
    {
      if pos == 0 {
        return;
      }
      Move(if pos > 0 then 1 else -1);
    }

    /** Only a primary mouse button, a pen or a touch starts a gesture. */
    method OnPointerDown(ev: PointerEvent)
      modifies this`pointerDown, this`pointerId, this`startX, this`startY, this`swiped
      ensures ev.pointerType == "mouse" && ev.button != 0 ==>
                pointerDown == old(pointerDown) && pointerId == old(pointerId) &&
                startX == old(startX) && startY == old(startY) && swiped == old(swiped)
      ensures !(ev.pointerType == "mouse" && ev.button != 0) ==>
                pointerDown && pointerId == Some(ev.pointerId) &&
                startX == ev.clientX && startY == ev.clientY && !swiped
    {
      if ev.pointerType == "mouse" && ev.button != 0 {
        return;
      }
      pointerDown := true;
      pointerId := Some(ev.pointerId);
      startX := ev.clientX;
      startY := ev.clientY;
      swiped := false;
    }

    /** A predicate over the state before a move event: this event completes
        a horizontal swipe of the gesture in progress. */
    predicate SwipeFires(ev: PointerEvent)
      reads this
    {
      var dx := ev.clientX - startX;
      var dy := ev.clientY - startY;
      pointerDown && pointerId == Some(ev.pointerId) && !swiped &&
      Abs(dx) >= SwipeThreshold && Abs(dx) >= Abs(dy)
    }

    /** Returns whether the event's default action (scrolling) was prevented. */
    method OnPointerMove(ev: PointerEvent) returns (prevented: bool)
      requires Valid()
      modifies this`swiped, this`activeIndex
      ensures Valid()
      ensures prevented == old(SwipeFires(ev))
      ensures swiped == (old(swiped) || prevented)
      ensures activeIndex == if prevented
                             then MoveIndex(old(activeIndex), SwipeStep(ev.clientX - startX), count)
                             else old(activeIndex)
    {
      prevented := false;
      if !pointerDown {
        return;
      }
      if pointerId != Some(ev.pointerId) {
        return;
      }
      if swiped {
        return;
      }
      var dx := ev.clientX - startX;
      var dy := ev.clientY - startY;
      if Abs(dx) < SwipeThreshold {
        return;
      }
      if Abs(dx) < Abs(dy) {
        return;
      }
      prevented := true;
      swiped := true;
      Move(if dx < 0.0 then 1 else -1);
    }

    /** Only the pointer that started the gesture ends it. */
    method OnPointerUp(ev: PointerEvent)
      modifies this`pointerDown, this`pointerId
      ensures old(pointerId) == Some(ev.pointerId) ==> !pointerDown && pointerId == None
      ensures old(pointerId) != Some(ev.pointerId) ==>
                pointerDown == old(pointerDown) && pointerId == old(pointerId)
    {
      if pointerId != Some(ev.pointerId) {
        return;
      }
      pointerDown := false;
      pointerId := None;
    }
  }

  /** What may happen between two pointer-down events. */
  datatype GestureEvent = MoveEvent(ev: PointerEvent) | UpEvent(ev: PointerEvent)

  /** A gesture moves the carousel at most once: start one with `down`, feed
      it any run of move and up events, and count the moves that fired. */
  method SwipeMovesAtMostOnce(count: nat, down: PointerEvent, rest: seq<GestureEvent>)
    returns (fired: nat)
    ensures fired <= 1
  {
    var c := new StaggerTestimonials(count);
    c.OnPointerDown(down);
    fired := 0;
    var k := 0;
    while k < |rest|
      invariant 0 <= k <= |rest|
      invariant c.Valid()
      invariant fired <= 1
      invariant fired == 1 ==> c.swiped
    {
      match rest[k] {
        case MoveEvent(ev) =>
          var prevented := c.OnPointerMove(ev);
          if prevented {
            fired := fired + 1;
          }
        case UpEvent(ev) =>
          c.OnPointerUp(ev);
      }
      k := k + 1;
    }
  }
}
