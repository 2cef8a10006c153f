/** The icon cloud (`icon-cloud`): the requested slugs are lower-cased and
    de-duplicated, looked up in an icon index (re-keyed by slug when its
    entries carry one) and turned into items with an inline SVG; the
    sphere is started once there are items and a canvas with an area.
    The module loader, `encodeURIComponent` and the sphere library's own
    work arrive as inputs. */
module IconCloud {
  import opened Common

  /** An entry of the icon index; every field may be absent. */
  datatype IconEntry = IconEntry(slug: Option<string>, title: Option<string>, path: Option<string>,
                                 svg: Option<string>, hex: Option<string>)

  datatype IconItem = IconItem(slug: string, title: string, dataUri: string)

  // ------------------------------------------------------------ de-duplication

  predicate Distinct(xs: seq<string>) {
    forall i, j :: 0 <= i < j < |xs| ==> xs[i] != xs[j]
  }

  /** `Array.from(new Set(xs))`: each value once, at its first occurrence. */
  function Dedupe(xs: seq<string>): (r: seq<string>)
    ensures Distinct(r)
    ensures forall x :: x in r <==> x in xs
    ensures |r| <= |xs|
  {
    if xs == [] then []
    else
      var init := xs[..|xs| - 1];
      var last := xs[|xs| - 1];
      assert xs == init + [last];
      if last in init then Dedupe(init) else Dedupe(init) + [last]
  }

  /** The position of the first `x` in `xs`. */
  function FirstIndex(xs: seq<string>, x: string): (i: nat)
    requires x in xs
    ensures i < |xs| && xs[i] == x && x !in xs[..i]
    ensures forall j :: 0 <= j < i ==> xs[j] != x
  {
    if xs[0] == x then 0
    else
      var k := FirstIndex(xs[1..], x);
      assert xs[..k + 1] == [xs[0]] + xs[1..][..k];
      k + 1
  }

  lemma FirstIndexIs(xs: seq<string>, x: string, k: nat)
    requires k < |xs| && xs[k] == x && x !in xs[..k]
    ensures FirstIndex(xs, x) == k
  {
    assert forall j :: 0 <= j < k ==> xs[..k][j] == xs[j];
  }

  /** The kept values appear in the order of their first occurrences. */
  lemma {:induction false} DedupeKeepsFirstOrder(xs: seq<string>, i: nat, j: nat)
    requires i < j < |Dedupe(xs)|
    ensures FirstIndex(xs, Dedupe(xs)[i]) < FirstIndex(xs, Dedupe(xs)[j])
    decreases |xs|
  {
    var init := xs[..|xs| - 1];
    var last := xs[|xs| - 1];
    assert xs == init + [last];
    var d := Dedupe(init);
    var r := Dedupe(xs);
    var a := r[i];
    assert a == d[i] && a in init;
    var fa := FirstIndex(init, a);
    assert init[..fa] == xs[..fa];
    FirstIndexIs(xs, a, fa);
    if j < |d| {
      var b := r[j];
      assert b == d[j] && b in init;
      var fb := FirstIndex(init, b);
      assert init[..fb] == xs[..fb];
      FirstIndexIs(xs, b, fb);
      DedupeKeepsFirstOrder(init, i, j);
    } else {
      assert r[j] == last && last !in init;
      FirstIndexIs(xs, last, |init|);
    }
  }

  function LowerAll(xs: seq<string>): (r: seq<string>)
    ensures |r| == |xs| && forall i :: 0 <= i < |xs| ==> r[i] == ToLower(xs[i])
  {
    seq(|xs|, i requires 0 <= i < |xs| => ToLower(xs[i]))
  }

  // ------------------------------------------------------------ rendering

  /** `iconHex` with a leading `#`, added only when missing. */
  function SafeColour(hex: string): (c: string)
    ensures |c| > 0 && c[0] == '#'
    ensures StartsWith(hex, "#") ==> c == hex
    ensures !StartsWith(hex, "#") ==> c == "#" + hex
  {
    if StartsWith(hex, "#") then hex else "#" + hex
  }

  lemma SafeColourIdempotent(hex: string)
    ensures SafeColour(SafeColour(hex)) == SafeColour(hex)
  {
    var c := SafeColour(hex);
    assert c[..1] == "#";
  }

  const XmlOpen: string := "<?xml"
  const SvgPrologue: string := " version=\"1.0\" encoding=\"UTF-8\"?>\n<svg xmlns=\"http://www.w3.org/2000/svg\" width=\"42\" height=\"42\" viewBox=\"0 0 24 24\">\n  <rect x=\"0\" y=\"0\" width=\"24\" height=\"24\" "
  /** The tile's corner radius and the start of its fill. */
  const TileFill: string := "rx=\"10\" fill=\""
  const Quote: string := "\""
  const SvgGroup: string := " />\n  <g transform=\"translate(2.5 2.5) scale(0.79)\">\n    "
  const SvgTail: string := "\n  </g>\n</svg>"

  /** The `<path>` element drawing the icon. */
  function PathElement(pathSvg: string, iconHex: string): string {
    "<path d=" + Quote + pathSvg + Quote + " fill=" + Quote + SafeColour(iconHex) + Quote + " />"
  }

  /** `renderIconSvg`: a 42-pixel rounded tile in `bgHex` holding the
      icon path filled with its colour. */
  function RenderIconSvg(pathSvg: string, iconHex: string, bgHex: string): (svg: string)
    ensures StartsWith(svg, XmlOpen)
    ensures Contains(svg, PathElement(pathSvg, iconHex))
    ensures Contains(svg, TileFill + bgHex + Quote)
  {
    var tile := TileFill + bgHex + Quote;
    var path := PathElement(pathSvg, iconHex);
    LayoutStart(XmlOpen, SvgPrologue, tile, SvgGroup, path, SvgTail);
    LayoutTile(XmlOpen, SvgPrologue, tile, SvgGroup, path, SvgTail);
    LayoutPath(XmlOpen, SvgPrologue, tile, SvgGroup, path, SvgTail);
    XmlOpen + SvgPrologue + tile + SvgGroup + path + SvgTail
  }

  /** Where the parts of the tile end up in the document: it opens with
      the XML declaration, and holds the tile's fill and the icon path. */
  lemma LayoutStart(x: string, p: string, m: string, g: string, e: string, t: string)
    ensures StartsWith(x + p + m + g + e + t, x)
  {
    assert x + p + m + g + e + t == x + (p + m + g + e + t);
    PrefixOfConcat(x, p + m + g + e + t);
  }

  lemma LayoutTile(x: string, p: string, m: string, g: string, e: string, t: string)
    ensures Contains(x + p + m + g + e + t, m)
  {
    assert x + p + m + g + e + t == (x + p) + m + (g + e + t);
    ContainsMiddle(x + p, m, g + e + t);
  }

  lemma LayoutPath(x: string, p: string, m: string, g: string, e: string, t: string)
    ensures Contains(x + p + m + g + e + t, e)
  {
    ContainsMiddle(x + p + m + g, e, t);
  }

  lemma PrefixOfConcat(x: string, y: string)
    ensures StartsWith(x + y, x)
  {
    assert (x + y)[..|x|] == x;
  }

  // ------------------------------------------------------------ items

  /** `icon.path ?? icon.svg`. */
  function PathOf(e: IconEntry): Option<string> {
    if e.path.Some? then e.path else e.svg
  }

  /** The entry has something to draw: an empty path counts as none. */
  predicate Drawable(e: IconEntry) {
    PathOf(e).Some? && PathOf(e).value != ""
  }

  const DataUriPrefix: string := "data:image/svg+xml;charset=UTF-8,"

  /** Tile background and fallback icon colour for the page theme. */
  function Background(dark: bool): string {
    if dark then "#080510" else "#f3f2ef"
  }

  function FallbackHex(dark: bool): string {
    if dark then "#ffffff" else "#6e6e73"
  }

  /** The item built for a slug whose entry is drawable. */
  function MakeItem(slug: string, e: IconEntry, dark: bool, encode: string -> string): (item: IconItem)
    requires Drawable(e)
    ensures item.slug == slug
    ensures e.title.None? ==> item.title == slug
    ensures e.title.Some? ==> item.title == e.title.value
    ensures StartsWith(item.dataUri, DataUriPrefix)
  {
    var svg := RenderIconSvg(PathOf(e).value, e.hex.GetOr(FallbackHex(dark)), Background(dark));
    var uri := DataUriPrefix + encode(svg);
    assert uri[..|DataUriPrefix|] == DataUriPrefix;
    IconItem(slug, e.title.GetOr(slug), uri)
  }

  function Slugs(items: seq<IconItem>): (s: seq<string>)
    ensures |s| == |items| && forall i :: 0 <= i < |items| ==> s[i] == items[i].slug
  {
    if items == [] then [] else [items[0].slug] + Slugs(items[1..])
  }

  /** The map-and-filter pass over the unique slugs. */
  function BuildFrom(unique: seq<string>, index: map<string, IconEntry>, dark: bool, encode: string -> string): (r: seq<IconItem>)
    ensures |r| <= |unique|
    ensures forall i :: 0 <= i < |r| ==>
              r[i].slug in unique && r[i].slug in index && Drawable(index[r[i].slug]) &&
              r[i] == MakeItem(r[i].slug, index[r[i].slug], dark, encode)
  {
    if unique == [] then []
    else
      var rest := BuildFrom(unique[1..], index, dark, encode);
      var s := unique[0];
      if s in index && Drawable(index[s]) then [MakeItem(s, index[s], dark, encode)] + rest
      else rest
  }

  /** A slug gets an item exactly when the index can draw it. */
  lemma {:induction false} BuildFromSlugs(unique: seq<string>, index: map<string, IconEntry>, dark: bool, encode: string -> string)
    ensures forall s :: s in Slugs(BuildFrom(unique, index, dark, encode)) <==>
              s in unique && s in index && Drawable(index[s])
  {
    if unique != [] {
      BuildFromSlugs(unique[1..], index, dark, encode);
      var rest := BuildFrom(unique[1..], index, dark, encode);
      var s := unique[0];
      assert unique == [s] + unique[1..];
      if s in index && Drawable(index[s]) {
        var r := [MakeItem(s, index[s], dark, encode)] + rest;
        assert r[1..] == rest;
        assert Slugs(r) == [s] + Slugs(rest);
      }
    }
  }

  /** Distinct slugs give items with distinct slugs. */
  lemma {:induction false} BuildFromDistinct(unique: seq<string>, index: map<string, IconEntry>, dark: bool, encode: string -> string)
    requires Distinct(unique)
    ensures Distinct(Slugs(BuildFrom(unique, index, dark, encode)))
  {
    if unique != [] {
      var tail := unique[1..];
      DistinctTail(unique);
      BuildFromDistinct(tail, index, dark, encode);
      BuildFromSlugs(tail, index, dark, encode);
      var s := unique[0];
      if s in index && Drawable(index[s]) {
        assert s !in tail;
        var rest := BuildFrom(tail, index, dark, encode);
        SlugsCons(MakeItem(s, index[s], dark, encode), rest);
        DistinctCons(s, Slugs(rest));
      }
    }
  }

  lemma DistinctTail(xs: seq<string>)
    requires xs != [] && Distinct(xs)
    ensures Distinct(xs[1..])
  {
    var tail := xs[1..];
    forall i, j | 0 <= i < j < |tail| ensures tail[i] != tail[j] {
      assert tail[i] == xs[i + 1] && tail[j] == xs[j + 1];
    }
  }

  lemma DistinctCons(x: string, xs: seq<string>)
    requires x !in xs && Distinct(xs)
    ensures Distinct([x] + xs)
  {
    var r := [x] + xs;
    forall i, j | 0 <= i < j < |r| ensures r[i] != r[j] {
      assert r[j] == xs[j - 1];
      if i > 0 { assert r[i] == xs[i - 1]; }
    }
  }

  lemma SlugsCons(item: IconItem, rest: seq<IconItem>)
    ensures Slugs([item] + rest) == [item.slug] + Slugs(rest)
  {
    assert ([item] + rest)[1..] == rest;
  }

  /** Past a different head, the first position moves by one. */
  lemma FirstIndexPastHead(xs: seq<string>, x: string)
    requires xs != [] && xs[0] != x && x in xs[1..]
    ensures FirstIndex(xs, x) == FirstIndex(xs[1..], x) + 1
  {
  }

  /** Prepending a head that is neither value keeps their first-position order. */
  lemma FirstIndexOrderPastHead(xs: seq<string>, a: string, b: string)
    requires xs != [] && xs[0] != a && xs[0] != b && a in xs[1..] && b in xs[1..]
    requires FirstIndex(xs[1..], a) < FirstIndex(xs[1..], b)
    ensures FirstIndex(xs, a) < FirstIndex(xs, b)
  {
    FirstIndexPastHead(xs, a);
    FirstIndexPastHead(xs, b);
  }

  /** The slugs the map-and-filter pass keeps, in their order. */
  function KeptSlugs(unique: seq<string>, index: map<string, IconEntry>): (k: seq<string>)
    ensures |k| <= |unique|
  {
    if unique == [] then []
    else if unique[0] in index && Drawable(index[unique[0]]) then [unique[0]] + KeptSlugs(unique[1..], index)
    else KeptSlugs(unique[1..], index)
  }

  lemma {:induction false} KeptSlugsFrom(unique: seq<string>, index: map<string, IconEntry>, i: nat)
    requires i < |KeptSlugs(unique, index)|
    ensures KeptSlugs(unique, index)[i] in unique
    decreases |unique|
  {
    var tail := unique[1..];
    assert unique == [unique[0]] + tail;
    if unique[0] in index && Drawable(index[unique[0]]) {
      if i > 0 { KeptSlugsFrom(tail, index, i - 1); }
    } else {
      KeptSlugsFrom(tail, index, i);
    }
  }

  lemma {:induction false} SlugsOfBuildFrom(unique: seq<string>, index: map<string, IconEntry>, dark: bool,
                                            encode: string -> string)
    ensures Slugs(BuildFrom(unique, index, dark, encode)) == KeptSlugs(unique, index)
  {
    if unique != [] {
      SlugsOfBuildFrom(unique[1..], index, dark, encode);
      var s := unique[0];
      if s in index && Drawable(index[s]) {
        SlugsCons(MakeItem(s, index[s], dark, encode), BuildFrom(unique[1..], index, dark, encode));
      }
    }
  }

  lemma {:induction false} KeptSlugsKeepOrder(unique: seq<string>, index: map<string, IconEntry>, i: nat, j: nat)
    requires Distinct(unique)
    requires i < j < |KeptSlugs(unique, index)|
    ensures KeptSlugs(unique, index)[i] in unique && KeptSlugs(unique, index)[j] in unique
    ensures FirstIndex(unique, KeptSlugs(unique, index)[i]) < FirstIndex(unique, KeptSlugs(unique, index)[j])
    decreases |unique|
  {
    var tail := unique[1..];
    var s := unique[0];
    var rest := KeptSlugs(tail, index);
    KeptSlugsFrom(unique, index, i);
    KeptSlugsFrom(unique, index, j);
    DistinctTail(unique);
    assert s !in tail by {
      forall k | 0 <= k < |tail| ensures tail[k] != s { assert tail[k] == unique[k + 1]; }
    }
    if s in index && Drawable(index[s]) {
      var k := [s] + rest;
      assert KeptSlugs(unique, index) == k;
      var b := rest[j - 1];
      KeptSlugsFrom(tail, index, j - 1);
      assert k[j] == b && b in tail;
      if i == 0 {
        FirstIndexPastHead(unique, b);
      } else {
        var a := rest[i - 1];
        KeptSlugsFrom(tail, index, i - 1);
        assert k[i] == a && a in tail;
        KeptSlugsKeepOrder(tail, index, i - 1, j - 1);
        FirstIndexOrderPastHead(unique, a, b);
      }
    } else {
      KeptSlugsFrom(tail, index, i);
      KeptSlugsFrom(tail, index, j);
      KeptSlugsKeepOrder(tail, index, i, j);
      FirstIndexOrderPastHead(unique, rest[i], rest[j]);
    }
  }

  /** Over distinct slugs the items keep the slugs' order. */
  lemma BuildFromKeepsOrder(unique: seq<string>, index: map<string, IconEntry>, dark: bool,
                            encode: string -> string, i: nat, j: nat)
    requires Distinct(unique)
    requires i < j < |BuildFrom(unique, index, dark, encode)|
    ensures FirstIndex(unique, BuildFrom(unique, index, dark, encode)[i].slug)
          < FirstIndex(unique, BuildFrom(unique, index, dark, encode)[j].slug)
  {
    SlugsOfBuildFrom(unique, index, dark, encode);
    KeptSlugsKeepOrder(unique, index, i, j);
  }

  /** `buildIcons`: no index, no items; otherwise one item per distinct
      lower-cased slug that the index can draw, in first-request order. */
  function BuildIcons(index: Option<map<string, IconEntry>>, iconSlugs: Option<seq<string>>,
                      dark: bool, encode: string -> string): (r: seq<IconItem>)
    ensures index.None? ==> r == []
    ensures Distinct(Slugs(r))
    ensures forall s :: s in Slugs(r) <==>
              index.Some? && s in LowerAll(iconSlugs.GetOr([])) && s in index.value && Drawable(index.value[s])
    ensures forall i :: 0 <= i < |r| ==>
              index.Some? && r[i].slug in index.value &&
              r[i].title == index.value[r[i].slug].title.GetOr(r[i].slug)
    ensures index.Some? ==> forall i :: 0 <= i < |r| ==>
              r[i].slug in index.value && Drawable(index.value[r[i].slug]) &&
              r[i] == MakeItem(r[i].slug, index.value[r[i].slug], dark, encode)
  {
    if index.None? then []
    else
      BuildFromSlugs(Dedupe(LowerAll(iconSlugs.GetOr([]))), index.value, dark, encode);
      BuildFromDistinct(Dedupe(LowerAll(iconSlugs.GetOr([]))), index.value, dark, encode);
      BuildFrom(Dedupe(LowerAll(iconSlugs.GetOr([]))), index.value, dark, encode)
  }

  /** The items follow the order in which their slugs were first requested. */
  lemma BuildIconsKeepsRequestOrder(index: Option<map<string, IconEntry>>, iconSlugs: Option<seq<string>>,
                                    dark: bool, encode: string -> string)
    ensures forall i, j :: 0 <= i < j < |BuildIcons(index, iconSlugs, dark, encode)| ==>
              BuildIcons(index, iconSlugs, dark, encode)[i].slug in LowerAll(iconSlugs.GetOr([])) &&
              BuildIcons(index, iconSlugs, dark, encode)[j].slug in LowerAll(iconSlugs.GetOr([])) &&
              FirstIndex(LowerAll(iconSlugs.GetOr([])), BuildIcons(index, iconSlugs, dark, encode)[i].slug)
              < FirstIndex(LowerAll(iconSlugs.GetOr([])), BuildIcons(index, iconSlugs, dark, encode)[j].slug)
  {
    var xs := LowerAll(iconSlugs.GetOr([]));
    var r := BuildIcons(index, iconSlugs, dark, encode);
    forall i, j | 0 <= i < j < |r|
      ensures r[i].slug in xs && r[j].slug in xs && FirstIndex(xs, r[i].slug) < FirstIndex(xs, r[j].slug)
    {
      var u := Dedupe(xs);
      assert r == BuildFrom(u, index.value, dark, encode);
      BuildFromKeepsOrder(u, index.value, dark, encode, i, j);
      DedupeKeepsFirstOrder(xs, FirstIndex(u, r[i].slug), FirstIndex(u, r[j].slug));
    }
  }

  // ------------------------------------------------------------ the index

  /** Entry `i` of the object carries a slug that lower-cases to `k`. */
  predicate KeyedBy(obj: seq<(string, IconEntry)>, i: int, k: string) {
    0 <= i < |obj| && obj[i].1.slug.Some? && ToLower(obj[i].1.slug.value) == k
  }

  /** The last entry whose slug lower-cases to `k`. */
  function LastKeyed(obj: seq<(string, IconEntry)>, k: string): (e: Option<IconEntry>)
    ensures e.Some? <==> exists i :: KeyedBy(obj, i, k)
  {
    if obj == [] then None
    else if KeyedBy(obj, |obj| - 1, k) then Some(obj[|obj| - 1].1)
    else
      var init := obj[..|obj| - 1];
      assert forall i :: KeyedBy(init, i, k) ==> KeyedBy(obj, i, k);
      assert forall i :: KeyedBy(obj, i, k) ==> KeyedBy(init, i, k) || i == |obj| - 1;
      LastKeyed(init, k)
  }

  /** The object's own keys; a later duplicate key wins. */
  function AsMap(obj: seq<(string, IconEntry)>): (m: map<string, IconEntry>)
    ensures forall k :: k in m <==> exists i :: 0 <= i < |obj| && obj[i].0 == k
  {
    if obj == [] then map[]
    else
      var init := obj[..|obj| - 1];
      assert forall i :: 0 <= i < |init| ==> init[i] == obj[i];
      AsMap(init)[obj[|obj| - 1].0 := obj[|obj| - 1].1]
  }

  predicate HasSlugObjects(obj: seq<(string, IconEntry)>) {
    exists i :: 0 <= i < |obj| && obj[i].1.slug.Some?
  }

  /** `index` holds, under each lower-cased slug, the last entry with it. */
  ghost predicate Rekeyed(obj: seq<(string, IconEntry)>, index: map<string, IconEntry>) {
    forall k :: (k in index <==> LastKeyed(obj, k).Some?) &&
                (k in index ==> index[k] == LastKeyed(obj, k).value)
  }

  /** Appending an entry makes it the last one for its slug. */
  lemma LastKeyedAppend(pre: seq<(string, IconEntry)>, x: (string, IconEntry), k: string)
    ensures LastKeyed(pre + [x], k) ==
            (if x.1.slug.Some? && ToLower(x.1.slug.value) == k then Some(x.1) else LastKeyed(pre, k))
  {
    var obj := pre + [x];
    assert obj[..|obj| - 1] == pre;
  }

  /** What `normalize` makes of an object: re-keyed by lower-cased slug
      (the last entry wins) when any entry has a slug, itself otherwise. */
  ghost predicate IsNormalized(obj: seq<(string, IconEntry)>, index: map<string, IconEntry>) {
    (HasSlugObjects(obj) ==> Rekeyed(obj, index)) &&
    (!HasSlugObjects(obj) ==> index == AsMap(obj))
  }

  /** `normalize`: `obj` is the value picked from the module, `None` when
      it is missing or not an object. */
  method Normalize(obj: Option<seq<(string, IconEntry)>>) returns (index: Option<map<string, IconEntry>>)
    ensures obj.None? ==> index.None?
    ensures obj.Some? ==> index.Some? && IsNormalized(obj.value, index.value)
  {
    if obj.None? {
      return None;
    }
    var hasSlug := AnySlug(obj.value);
    if !hasSlug {
      return Some(AsMap(obj.value));
    }
    var bySlug := Rekey(obj.value);
    return Some(bySlug);
  }

  /** Whether some entry of the object has a slug. */
  method AnySlug(entries: seq<(string, IconEntry)>) returns (hasSlug: bool)
    ensures hasSlug <==> HasSlugObjects(entries)
  {
    hasSlug := false;
    var n := 0;
    while n < |entries|
      invariant 0 <= n <= |entries|
      invariant hasSlug <==> exists i :: 0 <= i < n && entries[i].1.slug.Some?
    {
      if entries[n].1.slug.Some? {
        hasSlug := true;
      }
      n := n + 1;
    }
  }

  /** The entries stored under their lower-cased slugs, a later entry
      replacing an earlier one with the same slug. */
  method Rekey(entries: seq<(string, IconEntry)>) returns (bySlug: map<string, IconEntry>)
    ensures Rekeyed(entries, bySlug)
  {
    bySlug := map[];
    var i := 0;
    while i < |entries|
      invariant 0 <= i <= |entries|
      invariant Rekeyed(entries[..i], bySlug)
    {
      var v := entries[i].1;
      assert entries[..i + 1] == entries[..i] + [entries[i]];
      forall k {
        LastKeyedAppend(entries[..i], entries[i], k);
      }
      if v.slug.Some? {
        bySlug := bySlug[ToLower(v.slug.value) := v];
      }
      i := i + 1;
    }
    assert entries[..|entries|] == entries;
  }

  /** A re-keyed index has only lower-case keys, the form the slugs are
      looked up in. */
  lemma {:induction false} KeyedIndexIsLowerCase(obj: seq<(string, IconEntry)>, index: map<string, IconEntry>, k: string)
    requires HasSlugObjects(obj) && IsNormalized(obj, index) && k in index
    ensures ToLower(k) == k
  {
    assert LastKeyed(obj, k).Some?;
    var i :| KeyedBy(obj, i, k);
    ToLowerIdempotent(obj[i].1.slug.value);
  }

  /** `loadSimpleIconsIndex`: the first module (`None` when its import
      failed or gave no object) is used if it yields an index, then the
      second; otherwise there is no index. */
  method LoadIndex(first: Option<seq<(string, IconEntry)>>, second: Option<seq<(string, IconEntry)>>)
    returns (index: Option<map<string, IconEntry>>)
    ensures first.Some? ==> index.Some? && IsNormalized(first.value, index.value)
    ensures first.None? && second.Some? ==> index.Some? && IsNormalized(second.value, index.value)
    ensures first.None? && second.None? ==> index.None?
  {
    var normalized := Normalize(first);
    if normalized.Some? {
      return normalized;
    }
    normalized := Normalize(second);
    if normalized.Some? {
      return normalized;
    }
    return None;
  }

  // ------------------------------------------------------------ the component

  /** The sphere's speed settings handed to `Start`. */
  datatype Speeds = Speeds(minSpeed: real, maxSpeed: real)

  const DefaultSpeeds: Speeds := Speeds(0.02, 0.04)

  /** A canvas side in device pixels for a host side of `extent` CSS
      pixels: at least one CSS pixel, times the pixel ratio (1 when the
      ratio reads as 0). */
  function CanvasExtent(extent: real, devicePixelRatio: real): (n: int)
    ensures devicePixelRatio >= 1.0 || devicePixelRatio == 0.0 ==> n >= 1
  {
    var dpr := if devicePixelRatio == 0.0 then 1.0 else devicePixelRatio;
    var css := Max(1.0, Floor(extent) as real);
    assert dpr >= 1.0 ==> css * dpr >= css * 1.0;
    Floor(css * dpr)
  }

  class IconCloudComponent {
    var items: seq<IconItem>
    var started: bool
    var canvasWidth: int
    var canvasHeight: int
    /** The settings of every `Start` call made. */
    var starts: seq<Speeds>

    constructor ()
      ensures items == [] && !started && canvasWidth == 0 && canvasHeight == 0 && starts == []
    {
      items := [];
      started := false;
      canvasWidth := 0;
      canvasHeight := 0;
      starts := [];
    }

    /** The built items reach the template. */
    method SetItems(built: seq<IconItem>)
      modifies this`items
      ensures items == built
    {
      items := built;
    }

    /** `resizeCanvas`: the canvas follows the host's size. */
    method ResizeCanvas(rectWidth: real, rectHeight: real, devicePixelRatio: real)
      modifies this`canvasWidth, this`canvasHeight
      ensures canvasWidth == CanvasExtent(rectWidth, devicePixelRatio)
      ensures canvasHeight == CanvasExtent(rectHeight, devicePixelRatio)
    {
      canvasWidth := CanvasExtent(rectWidth, devicePixelRatio);
      canvasHeight := CanvasExtent(rectHeight, devicePixelRatio);
    }

    /** `tryStart`: `loaded` says whether the sphere library could be
        loaded, `startSucceeds` whether its `Start` returned normally. */
    method TryStart(loaded: bool, reducedMotion: bool, startSucceeds: bool)
      modifies this`started, this`starts
      ensures old(started) || items == [] || canvasWidth == 0 || canvasHeight == 0 || !loaded ==>
                started == old(started) && starts == old(starts)
      ensures !old(started) && items != [] && canvasWidth != 0 && canvasHeight != 0 && loaded ==>
                starts == old(starts) + [if reducedMotion then Speeds(0.0, 0.0) else DefaultSpeeds] &&
                started == startSucceeds
    {
      if started {
        return;
      }
      if |items| == 0 {
        return;
      }
      if canvasWidth == 0 || canvasHeight == 0 {
        return;
      }
      if !loaded {
        return;
      }
      var opts := if reducedMotion then Speeds(0.0, 0.0) else DefaultSpeeds;
      starts := starts + [opts];
      if startSucceeds {
        started := true;
      }
    }
  }
}
