/** The parallax directive (`parallax.directive`): each animation frame
    measures where an element sits in its scrolling viewport, turns that
    into a clamped offset along one axis and eases the element's current
    offset a fixed share of the way towards it. Frames are coalesced:
    at most one is requested at a time. */
module Parallax {
  import opened Common

  datatype Axis = AxisX | AxisY

  /** Which point of the element is compared with the viewport's middle. */
  datatype Origin = Center | Top | Bottom

  /** The directive's inputs. */
  datatype Settings = Settings(speed: real, axis: Axis, maxPx: real, lerp: real, origin: Origin)

  const DefaultSettings: Settings := Settings(0.12, AxisY, 28.0, 0.12, Center)

  /** A box as `getBoundingClientRect` reports it. */
  datatype Box = Box(top: real, bottom: real, height: real)

  /** The anchor of the element, measured from the top of the container
      (or of the window when there is no container). */
  function AnchorLocal(rect: Box, containerRect: Option<Box>, origin: Origin): (y: real)
    ensures var offset := if containerRect.Some? then containerRect.value.top else 0.0;
            (origin == Top ==> y == rect.top - offset) &&
            (origin == Bottom ==> y == rect.bottom - offset) &&
            (origin == Center ==> y == rect.top - offset + rect.height / 2.0)
  {
    var topLocal := if containerRect.Some? then rect.top - containerRect.value.top else rect.top;
    var bottomLocal := if containerRect.Some? then rect.bottom - containerRect.value.top else rect.bottom;
    var anchor := topLocal + rect.height / 2.0;
    var anchor' := if origin == Top then topLocal else anchor;
    if origin == Bottom then bottomLocal else anchor'
  }

  /** The anchor's signed distance from the viewport's middle as a share
      of the viewport height; the divisor is at least 1, never 0. */
  function Normalized(anchorLocal: real, viewH: real): (n: real)
    ensures n * Max(1.0, viewH) == anchorLocal - viewH / 2.0
    ensures anchorLocal == viewH / 2.0 <==> n == 0.0
  {
    (anchorLocal - viewH / 2.0) / Max(1.0, viewH)
  }

  /** The offset the element is drawn towards, before the axis is chosen. */
  function Target(s: Settings, rect: Box, containerRect: Option<Box>, innerHeight: real): (t: real)
    ensures s.maxPx >= 0.0 ==> -s.maxPx <= t <= s.maxPx
    ensures s.maxPx < 0.0 ==> t == s.maxPx
  {
    var viewH := if containerRect.Some? then containerRect.value.height else innerHeight;
    var normalized := Normalized(AnchorLocal(rect, containerRect, s.origin), viewH);
    var delta := -normalized * s.speed * viewH;
    Clamp(delta, -s.maxPx, s.maxPx)
  }

  /** The target split over the two axes: the one not selected gets 0. */
  function AxisTargets(axis: Axis, target: real): (xy: (real, real))
    ensures axis == AxisX ==> xy == (target, 0.0)
    ensures axis == AxisY ==> xy == (0.0, target)
  {
    (if axis == AxisX then target else 0.0, if axis == AxisY then target else 0.0)
  }

  /** One easing step: the lerp share is clamped to [0, 1], so the new
      offset lies between the old one and the target. */
  function Ease(current: real, target: real, lerp: real): (next: real)
    ensures Min(current, target) <= next <= Max(current, target)
    ensures Abs(target - next) <= Abs(target - current)
    ensures lerp <= 0.0 ==> next == current
    ensures lerp >= 1.0 ==> next == target
  {
    var share := Clamp(lerp, 0.0, 1.0);
    Lerp(current, target, share)
  }

  /** Easing never passes the target, however many frames run. */
  lemma {:induction false} EaseNeverOvershoots(current: real, target: real, lerp: real, frames: nat)
    ensures Min(current, target) <= Repeat(current, target, lerp, frames) <= Max(current, target)
    decreases frames
  {
    if frames > 0 {
      var next := Ease(current, target, lerp);
      EaseNeverOvershoots(next, target, lerp, frames - 1);
    }
  }

  /** `frames` easing steps towards a fixed target. */
  function Repeat(current: real, target: real, lerp: real, frames: nat): real
    decreases frames
  {
    if frames == 0 then current else Repeat(Ease(current, target, lerp), target, lerp, frames - 1)
  }

  class ParallaxDirective {
    const settings: Settings
    var reduceMotion: bool
    var visible: bool
    var rafPending: bool
    /** Whether `rafId` holds a frame handle. */
    var rafId: bool
    var currentX: real
    var currentY: real
    /** Whether the `--parallax-x`/`--parallax-y` properties are set. */
    var cssSet: bool

    constructor (settings: Settings)
      ensures this.settings == settings
      ensures !reduceMotion && visible && !rafPending && !rafId
      ensures currentX == 0.0 && currentY == 0.0 && !cssSet
    {
      this.settings := settings;
      reduceMotion := false;
      visible := true;
      rafPending := false;
      rafId := false;
      currentX := 0.0;
      currentY := 0.0;
      cssSet := false;
    }

    /** `ngAfterViewInit`: under reduced motion nothing is wired up;
        otherwise a first frame is requested. */
    method AfterViewInit(prefersReducedMotion: bool)
      modifies this`reduceMotion, this`rafPending, this`rafId
      ensures reduceMotion == prefersReducedMotion
      ensures reduceMotion || !visible || old(rafPending) ==>
                rafPending == old(rafPending) && rafId == old(rafId)
      ensures !reduceMotion && visible && !old(rafPending) ==> rafPending && rafId
    {
      reduceMotion := prefersReducedMotion;
      if reduceMotion {
        return;
      }
      RequestUpdate();
    }

    /** `requestUpdate`: a frame is requested only with motion allowed,
        the element visible and no frame already pending. */
    method RequestUpdate()
      modifies this`rafPending, this`rafId
      ensures reduceMotion || !visible || old(rafPending) ==>
                rafPending == old(rafPending) && rafId == old(rafId)
      ensures !reduceMotion && visible && !old(rafPending) ==> rafPending && rafId
    {
      if reduceMotion {
        return;
      }
      if !visible {
        return;
      }
      if rafPending {
        return;
      }
      rafPending := true;
      rafId := true;
    }

    /** The intersection observer reports whether the element is visible. */
    method OnIntersection(isIntersecting: bool)
      modifies this`visible, this`rafPending, this`rafId
      ensures visible == isIntersecting
      ensures !isIntersecting ==> rafPending == old(rafPending) && rafId == old(rafId)
      ensures isIntersecting && (reduceMotion || old(rafPending)) ==>
                rafPending == old(rafPending) && rafId == old(rafId)
      ensures isIntersecting && !reduceMotion && !old(rafPending) ==> rafPending && rafId
    {
      visible := isIntersecting;
      if visible {
        RequestUpdate();
      }
    }

    /** The requested frame fires: `apply`. The handle is left as it is. */
    method FrameFires(rect: Box, containerRect: Option<Box>, innerHeight: real)
      requires rafPending
      modifies this`rafPending, this`currentX, this`currentY, this`cssSet
      ensures !rafPending && cssSet
      ensures var xy := AxisTargets(settings.axis, Target(settings, rect, containerRect, innerHeight));
              currentX == Ease(old(currentX), xy.0, settings.lerp) &&
              currentY == Ease(old(currentY), xy.1, settings.lerp)
    {
      rafPending := false;
      var xy := AxisTargets(settings.axis, Target(settings, rect, containerRect, innerHeight));
      currentX := Ease(currentX, xy.0, settings.lerp);
      currentY := Ease(currentY, xy.1, settings.lerp);
      cssSet := true;
    }

    /** `cancelRaf`: with a handle, drop it and the pending flag. */
    method CancelRaf()
      modifies this`rafPending, this`rafId
      ensures !rafId
      ensures old(rafId) ==> !rafPending
      ensures !old(rafId) ==> rafPending == old(rafPending)
    {
      if !rafId {
        return;
      }
      rafId := false;
      rafPending := false;
    }

    /** `ngOnDestroy`: cancel the frame; unless motion is reduced, clear
        the offsets and their style properties. */
    method OnDestroy()
      modifies this`rafPending, this`rafId, this`currentX, this`currentY, this`cssSet
      ensures !rafId
      ensures old(rafId) ==> !rafPending
      ensures !old(rafId) ==> rafPending == old(rafPending)
      ensures reduceMotion ==> currentX == old(currentX) && currentY == old(currentY) && cssSet == old(cssSet)
      ensures !reduceMotion ==> currentX == 0.0 && currentY == 0.0 && !cssSet
    {
      CancelRaf();
      if reduceMotion {
        return;
      }
      cssSet := false;
      currentX := 0.0;
      currentY := 0.0;
    }
  }
}
