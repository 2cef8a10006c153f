/** The application shell (`app.ts`): the initial language, the list of
    page sections, the choice of the section the navigation highlights,
    and the animated jump to a section inside the page's scroll
    container. Geometry, clocks and storage reads arrive as inputs. */
module AppShell {
  import opened Common

  // ------------------------------------------------------------ language

  /** The language the page starts in: the stored choice, else the
      browser's, else Portuguese; English exactly when that text begins
      with "en" in any letter case. */
  function InitialLang(stored: Option<string>, browser: Option<string>): (l: Lang)
    ensures var s := stored.GetOr(browser.GetOr("pt"));
            l == En <==> |s| >= 2 && LowerChar(s[0]) == 'e' && LowerChar(s[1]) == 'n'
  {
    var initial := ToLower(stored.GetOr(browser.GetOr("pt")));
    if StartsWith(initial, "en") then En else Pt
  }

  /** A stored choice hides whatever the browser reports. */
  lemma StoredChoiceWins(s: string, b1: Option<string>, b2: Option<string>)
    ensures InitialLang(Some(s), b1) == InitialLang(Some(s), b2)
  {
  }

  /** Letter case of the stored or reported language never matters. */
  lemma {:induction false} InitialLangIgnoresCase(s: string, browser: Option<string>)
    ensures InitialLang(Some(ToLower(s)), browser) == InitialLang(Some(s), browser)
    ensures InitialLang(None, Some(ToLower(s))) == InitialLang(None, Some(s))
  {
    var t := ToLower(s);
    if |s| >= 2 {
      assert LowerChar(t[0]) == LowerChar(s[0]);
      assert LowerChar(t[1]) == LowerChar(s[1]);
    }
  }

  /** Without any hint the page is Portuguese, and regional English
      variants all select English. */
  lemma InitialLangExamples()
    ensures InitialLang(None, None) == Pt
    ensures InitialLang(None, Some("EN-gb")) == En
    ensures InitialLang(Some("pt-BR"), Some("en")) == Pt
    ensures InitialLang(Some("e"), Some("en")) == Pt
  {
  }

  // ------------------------------------------------------------ sections

  datatype Section = Section(id: string, labelKey: string)

  /** The ten sections in page order. */
  const Sections: seq<Section> := [
    Section("home", "nav.home"),
    Section("objetivo", "nav.objective"),
    Section("sobre", "nav.about"),
    Section("legado", "nav.legacy"),
    Section("projetos", "nav.projects"),
    Section("experiencia", "nav.experience"),
    Section("formacao", "nav.education"),
    Section("cursos", "nav.courses"),
    Section("skills", "nav.skills"),
    Section("contato", "nav.contact")
  ]

  const InitialSectionId: string := "home"

  /** `id` names one of the ten sections. */
  predicate IsSectionId(id: string)
    ensures IsSectionId(id) <==>
              id in {"home", "objetivo", "sobre", "legado", "projetos",
                     "experiencia", "formacao", "cursos", "skills", "contato"}
  {
    SectionIdsListed(id);
    exists i | 0 <= i < |Sections| :: Sections[i].id == id
  }

  lemma SectionIdsListed(id: string)
    ensures (exists i | 0 <= i < |Sections| :: Sections[i].id == id) <==>
              id in {"home", "objetivo", "sobre", "legado", "projetos",
                     "experiencia", "formacao", "cursos", "skills", "contato"}
  {
    var ids := ["home", "objetivo", "sobre", "legado", "projetos",
                "experiencia", "formacao", "cursos", "skills", "contato"];
    assert forall i | 0 <= i < |Sections| :: Sections[i].id == ids[i];
    if id in ids {
      var k :| 0 <= k < |ids| && ids[k] == id;
      assert Sections[k].id == id;
    }
  }

  /** No two sections share an id, and the highlight starts on the first. */
  lemma SectionIdsDistinct()
    ensures |Sections| == 10
    ensures forall i, j :: 0 <= i < j < |Sections| ==> Sections[i].id != Sections[j].id
    ensures Sections[0].id == InitialSectionId && IsSectionId(InitialSectionId)
  {
  }

  // ------------------------------------------------------------ active section

  /** A bounding box as `getBoundingClientRect` reports it. */
  datatype Box = Box(top: real, bottom: real, height: real)

  /** A `[data-section]` element: its `id` attribute and its box. */
  datatype SectionEl = SectionEl(id: Option<string>, rect: Box)

  /** The observer's visibility test: a box is out of view exactly when
      it lies wholly above or wholly below the view. */
  predicate Overlaps(r: Box, view: Box)
    ensures !Overlaps(r, view) <==> r.bottom <= view.top || r.top >= view.bottom
  {
    r.bottom > view.top && r.top < view.bottom
  }

  /** The viewport sections are measured against: the window in page
      scrolling mode, the container otherwise. */
  function View(bodyScroll: bool, containerRect: Box, innerHeight: real): Box {
    if bodyScroll then Box(0.0, innerHeight, innerHeight) else containerRect
  }

  /** The sections overlapping `view`, in page order. */
  function VisibleSections(els: seq<SectionEl>, view: Box): (vis: seq<SectionEl>)
    ensures |vis| <= |els|
    ensures forall e :: e in vis <==> e in els && Overlaps(e.rect, view)
  {
    if els == [] then []
    else if Overlaps(els[0].rect, view) then [els[0]] + VisibleSections(els[1..], view)
    else VisibleSections(els[1..], view)
  }

  /** The filter keeps page order: it works piece by piece over a
      concatenation, one section at a time. */
  lemma {:induction false} VisibleSectionsAppend(a: seq<SectionEl>, b: seq<SectionEl>, view: Box)
    ensures VisibleSections(a + b, view) == VisibleSections(a, view) + VisibleSections(b, view)
  {
    var s := a + b;
    if a == [] {
      assert s == b;
    } else {
      assert s[0] == a[0] && s[1..] == a[1..] + b;
      VisibleSectionsAppend(a[1..], b, view);
      if Overlaps(a[0].rect, view) {
        calc {
          VisibleSections(s, view);
          [a[0]] + VisibleSections(a[1..] + b, view);
          [a[0]] + (VisibleSections(a[1..], view) + VisibleSections(b, view));
          ([a[0]] + VisibleSections(a[1..], view)) + VisibleSections(b, view);
        }
      } else {
        assert VisibleSections(s, view) == VisibleSections(a[1..] + b, view);
      }
    }
  }

  /** How far a section is from where the reader looks: its top edge in
      page scrolling mode, its middle against the container's middle
      otherwise. */
  function Distance(r: Box, view: Box, bodyScroll: bool): (d: real)
    ensures d >= 0.0
  {
    if bodyScroll then Abs(r.top)
    else Abs(r.top + r.height / 2.0 - (view.top + view.height / 2.0))
  }

  function DistancesOf(vis: seq<SectionEl>, view: Box, bodyScroll: bool): (ds: seq<real>)
    ensures |ds| == |vis|
    ensures forall i :: 0 <= i < |vis| ==> ds[i] == Distance(vis[i].rect, view, bodyScroll)
  {
    if vis == [] then [] else [Distance(vis[0].rect, view, bodyScroll)] + DistancesOf(vis[1..], view, bodyScroll)
  }

  /** The head of a stable ascending sort: the first smallest entry. */
  function {:induction false} ArgMinFirst(ds: seq<real>): (i: nat)
    requires |ds| > 0
    ensures FirstMinimum(ds, i)
  {
    if |ds| == 1 then 0
    else
      var j := ArgMinFirst(ds[1..]);
      if ds[0] <= ds[1 + j] then 0 else 1 + j
  }

  /** The section `updateActive` settles on, if any is visible. */
  function Closest(els: seq<SectionEl>, view: Box, bodyScroll: bool): (c: Option<SectionEl>)
    ensures c.None? <==> forall e :: e in els ==> !Overlaps(e.rect, view)
    ensures c.Some? ==> c.value in els && Overlaps(c.value.rect, view)
  {
    var vis := VisibleSections(els, view);
    if vis == [] then None
    else Some(vis[ArgMinFirst(DistancesOf(vis, view, bodyScroll))])
  }

  /** Section `k` of `vis` is strictly nearer than every one before it. */
  predicate FirstNearest(vis: seq<SectionEl>, k: int, view: Box, bodyScroll: bool) {
    0 <= k < |vis| &&
    forall j :: 0 <= j < k ==> Distance(vis[k].rect, view, bodyScroll) < Distance(vis[j].rect, view, bodyScroll)
  }

  /** The chosen section is at least as near as every other visible one,
      and strictly nearer than every visible one above it in page order
      (a stable sort keeps the first of equally near sections). */
  lemma ClosestIsNearestVisible(els: seq<SectionEl>, view: Box, bodyScroll: bool)
    requires Closest(els, view, bodyScroll).Some?
    ensures var c := Closest(els, view, bodyScroll).value;
            forall e :: e in els && Overlaps(e.rect, view) ==>
              Distance(c.rect, view, bodyScroll) <= Distance(e.rect, view, bodyScroll)
    ensures exists k :: FirstNearest(VisibleSections(els, view), k, view, bodyScroll) &&
                       VisibleSections(els, view)[k] == Closest(els, view, bodyScroll).value
  {
    var vis := VisibleSections(els, view);
    var ds := DistancesOf(vis, view, bodyScroll);
    var k := ArgMinFirst(ds);
    forall e | e in els && Overlaps(e.rect, view)
      ensures Distance(vis[k].rect, view, bodyScroll) <= Distance(e.rect, view, bodyScroll)
    {
      var j :| 0 <= j < |vis| && vis[j] == e;
      assert ds[k] <= ds[j];
    }
    forall j | 0 <= j < k
      ensures Distance(vis[k].rect, view, bodyScroll) < Distance(vis[j].rect, view, bodyScroll)
    {
      assert ds[k] < ds[j];
    }
    assert Closest(els, view, bodyScroll) == Some(vis[k]);
    assert FirstNearest(vis, k, view, bodyScroll) && vis[k] == Closest(els, view, bodyScroll).value;
  }

  // ------------------------------------------------------------ navigation

  /** `easeInOutCubic`: the first half of the time covers at most the
      first half of the way, and the second half the rest. */
  function Ease(t: real): (e: real)
    ensures t <= 0.5 ==> e <= 0.5
    ensures t >= 0.5 ==> e >= 0.5
  {
    if t < 0.5 then
      CubeAtMost(t, 0.5);
      4.0 * t * t * t
    else
      CubeAtMost(-2.0 * t + 2.0, 1.0);
      1.0 - (-2.0 * t + 2.0) * (-2.0 * t + 2.0) * (-2.0 * t + 2.0) / 2.0
  }

  lemma CubeBounds(u: real, hi: real)
    requires 0.0 <= u <= hi
    ensures 0.0 <= u * u * u <= hi * hi * hi
  {
    assert 0.0 <= u * u <= hi * hi;
  }

  lemma CubeAtMost(u: real, hi: real)
    requires u <= hi && hi >= 0.0
    ensures u * u * u <= hi * hi * hi
  {
    CubeBounds(0.0, hi);
    if u >= 0.0 {
      CubeBounds(u, hi);
    } else {
      MulNonPos(u, u * u);
    }
  }

  lemma CubeOfDouble(x: real)
    ensures (2.0 * x) * (2.0 * x) * (2.0 * x) == 8.0 * (x * x * x)
  {
  }

  /** The curve is point-symmetric about its middle: easing in mirrors
      easing out. */
  lemma EaseSymmetric(t: real)
    ensures Ease(1.0 - t) == 1.0 - Ease(t)
  {
    if t < 0.5 {
      assert -2.0 * (1.0 - t) + 2.0 == 2.0 * t;
      CubeOfDouble(t);
    } else if t > 0.5 {
      assert -2.0 * t + 2.0 == 2.0 * (1.0 - t);
      CubeOfDouble(1.0 - t);
    }
  }

  /** The curve starts at 0, ends at 1 and stays in between. */
  lemma EaseRange(t: real)
    ensures Ease(0.0) == 0.0 && Ease(1.0) == 1.0
    ensures 0.0 <= t <= 1.0 ==> 0.0 <= Ease(t) <= 1.0
  {
    if 0.0 <= t < 0.5 {
      CubeBounds(t, 0.5);
    } else if 0.5 <= t <= 1.0 {
      CubeBounds(-2.0 * t + 2.0, 1.0);
    }
  }

  const NavDurationMs: real := 700.0
  const NavRestoreDelayMs: nat := 1600

  /** The closure an animation frame runs: where it started, where it
      goes, when it started, and the container styles to put back. */
  datatype NavAnimation = NavAnimation(startTop: real, top: real, startTs: real,
                                       prevSnapType: string, prevBehavior: string)

  /** The share of the animation elapsed at `now`, never above 1. */
  function Progress(a: NavAnimation, now: real): (t: real)
    ensures t <= 1.0
    ensures now >= a.startTs ==> t >= 0.0
    ensures t == 1.0 <==> now >= a.startTs + NavDurationMs
  {
    Min(1.0, (now - a.startTs) / NavDurationMs)
  }

  /** The container position an intermediate frame sets. */
  function FramePosition(a: NavAnimation, now: real): (y: real)
    ensures now >= a.startTs ==> Min(a.startTop, a.top) <= y <= Max(a.startTop, a.top)
    ensures now >= a.startTs + NavDurationMs ==> y == a.top
  {
    var t := Progress(a, now);
    EaseRange(t);
    Lerp(a.startTop, a.top, Ease(t))
  }

  /** Where a jump aims: the element's `offsetTop` when it is a finite
      non-negative number, else its position measured from the boxes. */
  function TargetTop(offsetTop: Option<real>, elRectTop: real, containerRectTop: real, scrollTop: real): (top: real)
    ensures offsetTop.Some? && offsetTop.value >= 0.0 ==> top == offsetTop.value
    ensures !(offsetTop.Some? && offsetTop.value >= 0.0) ==> top == elRectTop - containerRectTop + scrollTop
  {
    if offsetTop.Some? && offsetTop.value >= 0.0 then offsetTop.value
    else elRectTop - containerRectTop + scrollTop
  }

  /** The inline styles of the scroll container that a jump overrides. */
  datatype ContainerStyle = ContainerStyle(snapType: string, behavior: string, navScrolling: bool)

  /** The styles a jump should put back when it ends: while an earlier
      jump is still in flight the container carries that jump's override,
      so the styles it saved are passed on instead. */
  function CapturedStyles(style: ContainerStyle, frame: Option<NavAnimation>): (saved: (string, string))
    ensures frame.Some? ==> saved == (frame.value.prevSnapType, frame.value.prevBehavior)
    ensures frame.None? ==> saved == (style.snapType, style.behavior)
  {
    match frame
    case Some(a) => (a.prevSnapType, a.prevBehavior)
    case None => (style.snapType, style.behavior)
  }

  /** Whatever a jump in flight has done to the container, the next jump
      saves the styles from before the first one. */
  lemma CapturedStylesSurviveOverride(original: ContainerStyle, a: NavAnimation, overridden: ContainerStyle)
    requires a.prevSnapType == original.snapType && a.prevBehavior == original.behavior
    ensures CapturedStyles(overridden, Some(a)) == (original.snapType, original.behavior)
    ensures CapturedStyles(original, None) == (original.snapType, original.behavior)
  {
  }

  class App {
    var lang: Lang
    var documentLang: string
    var activeSectionId: string

    /** The scroll container's position and inline styles. */
    var scrollTop: real
    var style: ContainerStyle

    /** The scheduled animation frame (`navRaf` is non-zero exactly when
        there is one) and the scheduled style restore. */
    var frame: Option<NavAnimation>
    var restore: Option<(string, string)>
    /** Whether `navRestoreTimer` holds a handle. */
    var navRestoreTimer: bool

    /** Whether a scroll-driven `updateActive` frame is requested. */
    var scrollRafPending: bool

    /** Sections handed to `scrollIntoView` in page scrolling mode. */
    var intoView: seq<string>

    /** The constructor: `stored` is the saved language (absent also when
        storage throws), `browser` what the browser reports. */
    constructor (stored: Option<string>, browser: Option<string>, scrollTop: real, style: ContainerStyle)
      ensures lang == InitialLang(stored, browser) && documentLang == lang.DocumentLang()
      ensures activeSectionId == InitialSectionId
      ensures this.scrollTop == scrollTop && this.style == style
      ensures frame == None && restore == None && !navRestoreTimer && !scrollRafPending && intoView == []
    {
      var l := InitialLang(stored, browser);
      lang := l;
      documentLang := if l == Pt then "pt-BR" else "en";
      activeSectionId := InitialSectionId;
      this.scrollTop := scrollTop;
      this.style := style;
      frame := None;
      restore := None;
      navRestoreTimer := false;
      scrollRafPending := false;
      intoView := [];
    }

    /** `updateActive`: highlight the visible section nearest the reader;
        nothing visible, or a section without an id, changes nothing. */
    method UpdateActive(els: seq<SectionEl>, bodyScroll: bool, containerRect: Box, innerHeight: real)
      modifies this`activeSectionId
      ensures var c := Closest(els, View(bodyScroll, containerRect, innerHeight), bodyScroll);
              if c.Some? && c.value.id.Some? && c.value.id.value != "" then
                activeSectionId == c.value.id.value
              else
                activeSectionId == old(activeSectionId)
    {
      var view := View(bodyScroll, containerRect, innerHeight);
      var vis := VisibleSections(els, view);
      if |vis| == 0 {
        return;
      }
      var closest := vis[ArgMinFirst(DistancesOf(vis, view, bodyScroll))];
      var id := closest.id;
      if id.Some? && id.value != "" {
        activeSectionId := id.value;
      }
    }

    /** A scroll event: at most one `updateActive` frame is requested. */
    method Scrolled()
      modifies this`scrollRafPending
      ensures scrollRafPending
    {
      if scrollRafPending {
        return;
      }
      scrollRafPending := true;
    }

    method ScrollFrame(els: seq<SectionEl>, bodyScroll: bool, containerRect: Box, innerHeight: real)
      requires scrollRafPending
      modifies this`scrollRafPending, this`activeSectionId
      ensures !scrollRafPending
      ensures var c := Closest(els, View(bodyScroll, containerRect, innerHeight), bodyScroll);
              if c.Some? && c.value.id.Some? && c.value.id.value != "" then
                activeSectionId == c.value.id.value
              else
                activeSectionId == old(activeSectionId)
    {
      scrollRafPending := false;
      UpdateActive(els, bodyScroll, containerRect, innerHeight);
    }

    /** `scrollTo(id)`: only the ten section ids are accepted. In page
        scrolling mode the browser scrolls; otherwise the container
        animates towards the target, replacing any jump in flight. */
    method ScrollTo(id: string, elementExists: bool, bodyScroll: bool,
                    offsetTop: Option<real>, elRectTop: real, containerRectTop: real, now: real)
      modifies this`style, this`frame, this`restore, this`navRestoreTimer, this`intoView
      ensures !IsSectionId(id) || !elementExists ==>
                style == old(style) && frame == old(frame) && restore == old(restore) &&
                navRestoreTimer == old(navRestoreTimer) && intoView == old(intoView)
      ensures IsSectionId(id) && elementExists && bodyScroll ==>
                style == old(style) && frame == old(frame) && restore == old(restore) &&
                navRestoreTimer == old(navRestoreTimer) && intoView == old(intoView) + [id]
      ensures IsSectionId(id) && elementExists && !bodyScroll ==>
                style == ContainerStyle("none", "auto", true) &&
                frame == Some(NavAnimation(scrollTop, TargetTop(offsetTop, elRectTop, containerRectTop, scrollTop),
                                           now, old(style).snapType, old(style).behavior)) &&
                restore == Some((old(style).snapType, old(style).behavior)) &&
                navRestoreTimer && intoView == old(intoView)
    {
      if !(exists i | 0 <= i < |Sections| :: Sections[i].id == id) {
        return;
      }
      if !elementExists {
        return;
      }
      if bodyScroll {
        intoView := intoView + [id];
        return;
      }
      var top := TargetTop(offsetTop, elRectTop, containerRectTop, scrollTop);
      var prevSnapType := style.snapType;
      var prevBehavior := style.behavior;
      style := ContainerStyle("none", "auto", true);
      if navRestoreTimer {
        restore := None;
        navRestoreTimer := false;
      }
      if frame.Some? {
        frame := None;
      }
      frame := Some(NavAnimation(scrollTop, top, now, prevSnapType, prevBehavior));
      restore := Some((prevSnapType, prevBehavior));
      navRestoreTimer := true;
    }

    /** `scrollTo(id)` as evidently intended: like `ScrollTo`, but the
        styles to put back come from `CapturedStyles`, so a jump that
        replaces one in flight restores the styles from before both. */
    method ScrollToKeepingStyles(id: string, elementExists: bool, bodyScroll: bool,
                                 offsetTop: Option<real>, elRectTop: real, containerRectTop: real, now: real)
      modifies this`style, this`frame, this`restore, this`navRestoreTimer, this`intoView
      ensures !IsSectionId(id) || !elementExists ==>
                style == old(style) && frame == old(frame) && restore == old(restore) &&
                navRestoreTimer == old(navRestoreTimer) && intoView == old(intoView)
      ensures IsSectionId(id) && elementExists && bodyScroll ==>
                style == old(style) && frame == old(frame) && restore == old(restore) &&
                navRestoreTimer == old(navRestoreTimer) && intoView == old(intoView) + [id]
      ensures IsSectionId(id) && elementExists && !bodyScroll ==>
                var saved := CapturedStyles(old(style), old(frame));
                style == ContainerStyle("none", "auto", true) &&
                frame == Some(NavAnimation(scrollTop, TargetTop(offsetTop, elRectTop, containerRectTop, scrollTop),
                                           now, saved.0, saved.1)) &&
                restore == Some(saved) && navRestoreTimer && intoView == old(intoView)
    {
      if !(exists i | 0 <= i < |Sections| :: Sections[i].id == id) {
        return;
      }
      if !elementExists {
        return;
      }
      if bodyScroll {
        intoView := intoView + [id];
        return;
      }
      var top := TargetTop(offsetTop, elRectTop, containerRectTop, scrollTop);
      var saved := CapturedStyles(style, frame);
      style := ContainerStyle("none", "auto", true);
      if navRestoreTimer {
        restore := None;
        navRestoreTimer := false;
      }
      if frame.Some? {
        frame := None;
      }
      frame := Some(NavAnimation(scrollTop, top, now, saved.0, saved.1));
      restore := Some(saved);
      navRestoreTimer := true;
    }

    /** An animation frame at time `now`: move along the curve, and on the
        last frame land exactly on the target and put the styles back. */
    method NavFrame(now: real)
      requires frame.Some?
      modifies this`scrollTop, this`frame, this`style
      ensures var a := old(frame).value;
              if Progress(a, now) < 1.0 then
                scrollTop == FramePosition(a, now) && frame == old(frame) && style == old(style)
              else
                scrollTop == a.top && frame == None &&
                style == ContainerStyle(a.prevSnapType, a.prevBehavior, false)
    {
      var a := frame.value;
      var t := Min(1.0, (now - a.startTs) / NavDurationMs);
      var eased := Ease(t);
      scrollTop := Lerp(a.startTop, a.top, eased);
      if t < 1.0 {
        return;
      }
      frame := None;
      scrollTop := a.top;
      style := ContainerStyle(a.prevSnapType, a.prevBehavior, false);
    }

    /** The 1600 ms restore timer: it yields to a frame still pending. */
    method NavRestoreElapsed()
      requires restore.Some?
      modifies this`style, this`restore, this`navRestoreTimer
      ensures restore == None
      ensures old(frame).Some? ==> style == old(style) && navRestoreTimer == old(navRestoreTimer)
      ensures old(frame).None? ==>
                style == ContainerStyle(old(restore).value.0, old(restore).value.1, false) &&
                !navRestoreTimer
    {
      var prev := restore.value;
      restore := None;
      if frame.Some? {
        return;
      }
      style := ContainerStyle(prev.0, prev.1, false);
      navRestoreTimer := false;
    }
  }

  // ------------------------------------------------------------ two jumps in a row

  /** The container styles before any jump: mandatory snapping, smooth
      scrolling. */
  const SnapStyle: ContainerStyle := ContainerStyle("y mandatory", "smooth", false)

  /** `scrollTo` as written, called again while its first jump is still
      animating: the second call saves the "none" override as the styles
      to restore, and the first call's frame and timer, which held the
      real ones, are cancelled. When the second jump lands and its timer
      fires, snapping stays switched off. */
  method TwoJumpsAsWritten() returns (final: ContainerStyle)
    ensures final == ContainerStyle("none", "auto", false)
    ensures final.snapType != SnapStyle.snapType
  {
    var app := new App(None, None, 0.0, SnapStyle);
    assert Sections[0].id == "home" && Sections[9].id == "contato";
    app.ScrollTo("home", true, false, Some(500.0), 0.0, 0.0, 0.0);
    app.ScrollTo("contato", true, false, Some(900.0), 0.0, 0.0, 100.0);
    app.NavFrame(1000.0);
    app.NavRestoreElapsed();
    final := app.style;
  }

  /** The same two calls with the styles saved by `CapturedStyles`: the
      container ends with its original snapping and behaviour. */
  method TwoJumpsKeepingStyles() returns (final: ContainerStyle)
    ensures final == SnapStyle
  {
    var app := new App(None, None, 0.0, SnapStyle);
    assert Sections[0].id == "home" && Sections[9].id == "contato";
    app.ScrollToKeepingStyles("home", true, false, Some(500.0), 0.0, 0.0, 0.0);
    app.ScrollToKeepingStyles("contato", true, false, Some(900.0), 0.0, 0.0, 100.0);
    app.NavFrame(1000.0);
    app.NavRestoreElapsed();
    final := app.style;
  }
}
