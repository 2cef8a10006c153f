/** The bento grid (`bento-grid`): a card grid whose cards carry an icon,
    an optional status badge and optional tags; a card click is reported
    only when the grid is clickable. */
module Bento {
  import opened Common

  /** `BentoIconName`. */
  datatype IconName = TrendingUp | CheckCircle | Video | Globe | Clock | Star

  /** `BentoItem`; the optional fields are `None` when absent. */
  datatype BentoItem = BentoItem(
    title: string,
    description: string,
    icon: IconName,
    status: Option<string>,
    tags: Option<seq<string>>,
    meta: Option<string>,
    cta: Option<string>,
    colSpan: Option<nat>,
    hasPersistentHover: Option<bool>)

  /** `itemsSample`, the grid's default content. */
  const ItemsSample: seq<BentoItem> := [
    BentoItem("Analytics Dashboard",
              "Real-time metrics with AI-powered insights and predictive analytics",
              TrendingUp, Some("Live"), Some(["Statistics", "Reports", "AI"]), Some("v2.4.1"), None, Some(2), Some(true)),
    BentoItem("Task Manager",
              "Automated workflow management with priority scheduling",
              CheckCircle, Some("Updated"), Some(["Productivity", "Automation"]), Some("84 completed"), None, Some(1), None),
    BentoItem("Media Library",
              "Cloud storage with intelligent content processing",
              Video, None, Some(["Storage", "CDN"]), Some("12GB used"), None, Some(2), None),
    BentoItem("Global Network",
              "Multi-region deployment with edge computing",
              Globe, Some("Beta"), Some(["Infrastructure", "Edge"]), Some("6 regions"), None, Some(1), None)
  ]

  // ---------------------------------------------------------------- status badge

  const StatusPrefix: string := "bento-item__status--"
  const LiveClass: string := StatusPrefix + "live"
  const BetaClass: string := StatusPrefix + "beta"
  const UpdatedClass: string := StatusPrefix + "updated"

  /** The three badge classes differ from each other and from the empty
      class, which the badge choice below relies on. */
  lemma BadgeClassesDistinct()
    ensures LiveClass != BetaClass && LiveClass != UpdatedClass && BetaClass != UpdatedClass
    ensures LiveClass != "" && BetaClass != "" && UpdatedClass != ""
  {
    assert LiveClass[20] != BetaClass[20];
    assert |LiveClass| != |UpdatedClass| && |BetaClass| != |UpdatedClass|;
  }

  /** `statusClass`: no class for a missing or empty status; otherwise the
      lower-cased text picks "live", then "beta", then "updat" (so
      "Updated" and "Updating" alike), and no class when none occurs. */
  function StatusClass(status: Option<string>): (r: string)
    ensures status.None? || status.value == "" ==> r == ""
    ensures r == "" || r == LiveClass || r == BetaClass || r == UpdatedClass
    ensures r == LiveClass <==>
              status.Some? && Contains(ToLower(status.value), "live")
    ensures r == BetaClass <==>
              status.Some? && !Contains(ToLower(status.value), "live") && Contains(ToLower(status.value), "beta")
    ensures r == UpdatedClass <==>
              status.Some? && !Contains(ToLower(status.value), "live") && !Contains(ToLower(status.value), "beta") &&
              Contains(ToLower(status.value), "updat")
  {
    BadgeClassesDistinct();
    if status.None? || status.value == "" then ""
    else
      var s := ToLower(status.value);
      if Contains(s, "live") then LiveClass
      else if Contains(s, "beta") then BetaClass
      else if Contains(s, "updat") then UpdatedClass
      else ""
  }

  /** Letter case of the status never changes its badge. */
  lemma StatusClassIgnoresCase(s: string)
    ensures StatusClass(Some(ToLower(s))) == StatusClass(Some(s))
  {
    ToLowerIdempotent(s);
  }

  /** The default cards: "Live", "Updated" and "Beta" get their own
      badges and the card without a status gets none. */
  lemma SampleBadges()
    ensures StatusClass(ItemsSample[0].status) == LiveClass
    ensures StatusClass(ItemsSample[1].status) == UpdatedClass
    ensures StatusClass(ItemsSample[2].status) == ""
    ensures StatusClass(ItemsSample[3].status) == BetaClass
  {
    LiveStep();
    UpdatedStep();
    BetaStep();
  }

  // Proof steps of SampleBadges, one per status text.

  lemma LiveStep()
    ensures StatusClass(Some("Live")) == LiveClass
  {
    assert ToLower("Live") == "live";
    assert OccursAt("live", "live", 0);
  }

  lemma UpdatedStep()
    ensures StatusClass(Some("Updated")) == UpdatedClass
  {
    var s := ToLower("Updated");
    assert s == "updated";
    assert OccursAt(s, "updat", 0);
    Absent(s, "live");
    Absent(s, "beta");
  }

  lemma BetaStep()
    ensures StatusClass(Some("Beta")) == BetaClass
  {
    var s := ToLower("Beta");
    assert s == "beta";
    assert OccursAt(s, "beta", 0);
    Absent(s, "live");
  }

  /** A text without the needle's first character does not contain it. */
  lemma Absent(s: string, needle: string)
    requires |needle| > 0 && forall i :: 0 <= i < |s| ==> s[i] != needle[0]
    ensures !Contains(s, needle)
  {
    forall k | 0 <= k <= |s| - |needle|
      ensures !OccursAt(s, needle, k)
    {
      assert s[k..k + |needle|][0] == s[k];
    }
  }

  // ---------------------------------------------------------------- icons

  /** The stroke every icon shape is drawn with: no fill, the text colour,
      two units wide. */
  const Stroke: string := " fill=\"none\" stroke=\"currentColor\" stroke-width=\"2\""
  const RoundCaps: string := " stroke-linecap=\"round\""
  const RoundJoins: string := " stroke-linejoin=\"round\""

  /** The SVG elements the icons are made of: a path with its data and
      whether its line caps and joins are rounded, the clock-face circle
      and the camera body rectangle. */
  datatype Shape = Path(d: string, roundCaps: bool, roundJoins: bool) | Circle | Rect

  /** The markup of one element, a self-closing tag carrying `Stroke`. */
  function Markup(shape: Shape): (m: string)
    ensures |m| >= 2 && m[0] == '<' && m[|m| - 2..] == "/>"
    ensures Contains(m, Stroke)
  {
    var head := Opening(shape);
    var tail := match shape
      case Path(_, c, j) => (if c then RoundCaps else "") + (if j then RoundJoins else "")
      case _ => "";
    ContainsMiddle(head, Stroke, tail + "/>");
    head + Stroke + (tail + "/>")
  }

  /** The tag name and the geometry of an element. */
  function Opening(shape: Shape): (h: string)
    ensures |h| >= 1 && h[0] == '<'
  {
    "<" + match shape
          case Path(d, _, _) => "path d=\"" + d + "\""
          case Circle => "circle cx=\"12\" cy=\"12\" r=\"10\""
          case Rect => "rect x=\"1\" y=\"5\" width=\"15\" height=\"14\" rx=\"2\" ry=\"2\""
  }

  /** The elements one after another. */
  function Render(shapes: seq<Shape>): (svg: string)
    ensures shapes != [] ==> |svg| >= 2 && svg[0] == '<' && svg[|svg| - 2..] == "/>"
    ensures shapes != [] ==> Contains(svg, Stroke)
  {
    if shapes == [] then ""
    else
      var first := Markup(shapes[0]);
      var rest := Render(shapes[1..]);
      ContainsPrefix(first, rest, Stroke);
      assert rest != [] ==> (first + rest)[|first + rest| - 2..] == rest[|rest| - 2..];
      first + rest
  }

  lemma ContainsPrefix(a: string, b: string, m: string)
    requires Contains(a, m)
    ensures Contains(a + b, m)
  {
    var k :| 0 <= k <= |a| - |m| && OccursAt(a, m, k);
    assert (a + b)[k..k + |m|] == a[k..k + |m|];
    assert OccursAt(a + b, m, k);
  }

  /** The path data of the icons' strokes. */
  const TrendLine: string := "M3 17l6-6 4 4 7-7"
  const TrendArrow: string := "M14 8h6v6"
  const CheckArc: string := "M22 11.08V12a10 10 0 1 1-5.93-9.14"
  const CheckMark: string := "M22 4L12 14.01l-3-3"
  const CameraLens: string := "M23 7l-7 5 7 5V7z"
  const Equator: string := "M2 12h20"
  const Meridian: string := "M12 2a15.3 15.3 0 0 1 4 10 15.3 15.3 0 0 1-4 10 15.3 15.3 0 0 1-4-10 15.3 15.3 0 0 1 4-10z"
  const ClockHands: string := "M12 6v6l4 2"
  const StarOutline: string := "M12 2l3.09 6.26L22 9.27l-5 4.87L18.18 22 12 18.77 5.82 22 7 14.14l-5-4.87 6.91-1.01L12 2z"

  /** The elements each icon is drawn with. */
  function IconShapes(name: IconName): (shapes: seq<Shape>)
    ensures 1 <= |shapes| <= 3
  {
    match name
    case TrendingUp => [Path(TrendLine, true, true), Path(TrendArrow, true, true)]
    case CheckCircle => [Path(CheckArc, true, true), Path(CheckMark, true, true)]
    case Video => [Path(CameraLens, true, true), Rect]
    case Globe => [Circle, Path(Equator, true, false), Path(Meridian, false, false)]
    case Clock => [Circle, Path(ClockHands, true, true)]
    case Star => [Path(StarOutline, false, true)]
  }

  /** `iconSvg`: the SVG body drawn for each icon, a run of self-closing
      elements each stroked in the text colour. */
  function IconSvg(name: IconName): (svg: string)
    ensures |svg| >= 2 && svg[0] == '<' && svg[|svg| - 2..] == "/>"
    ensures Contains(svg, Stroke)
  {
    Render(IconShapes(name))
  }

  /** `iconColorClass`: the colour modifier of each icon. */
  function IconColorClass(name: IconName): (c: string)
    ensures StartsWith(c, "is-") && |c| > 3
  {
    match name
    case TrendingUp => "is-blue"
    case CheckCircle => "is-emerald"
    case Video => "is-purple"
    case Globe => "is-sky"
    case Clock => "is-amber"
    case Star => "is-yellow"
  }

  /** Each icon has its own colour. */
  lemma IconColorClassInjective(a: IconName, b: IconName)
    requires a != b
    ensures IconColorClass(a) != IconColorClass(b)
  {
    var ca, cb := IconColorClass(a), IconColorClass(b);
    assert |ca| != |cb| || ca[3] != cb[3];
  }

  // ---------------------------------------------------------------- grid

  class BentoGridComponent {
    var items: seq<BentoItem>
    var clickable: bool
    /** The cards reported through `itemClick`, oldest first. */
    var emitted: seq<BentoItem>

    constructor ()
      ensures items == ItemsSample && !clickable && emitted == []
    {
      items := ItemsSample;
      clickable := false;
      emitted := [];
    }

    /** `onItemClick`: the card is reported exactly when the grid is
        clickable. */
    method OnItemClick(item: BentoItem)
      modifies this`emitted
      ensures clickable ==> emitted == old(emitted) + [item]
      ensures !clickable ==> emitted == old(emitted)
    {
      if clickable {
        emitted := emitted + [item];
        return;
      }
    }
  }
}
