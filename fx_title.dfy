/** The particle title (`fx-title`): a heading split into letters, a
    hit test that finds the letter under the pointer, bursts of particles
    spawned from the letter the pointer enters, a field of slowly drifting
    ambient particles, and the animation loop that runs while there is
    something to show and pauses while the page scrolls. Random draws,
    `cos`/`sin` and `sqrt` results arrive as inputs; drawing on the canvas
    is not modelled. */
module FxTitle {
  import opened Common

  datatype Size = Hero | SectionSize | Small

  /** A letter's box, relative to the host element. */
  datatype LetterBox = LetterBox(x: real, y: real, width: real, height: real)

  /** The point lies in the box, edges included. */
  predicate Covers(b: LetterBox, x: real, y: real) {
    x >= b.x && x <= b.x + b.width && y >= b.y && y <= b.y + b.height
  }

  /** `i` is the first box under the point. */
  predicate FirstCover(bounds: seq<LetterBox>, x: real, y: real, i: int) {
    0 <= i < |bounds| && Covers(bounds[i], x, y) &&
    forall j :: 0 <= j < i ==> !Covers(bounds[j], x, y)
  }

  /** The letter at `i` is a space; a box without a letter is not one. */
  predicate IsSpaceAt(chars: seq<char>, i: int) {
    0 <= i < |chars| && chars[i] == ' '
  }

  /** `hitTestLetter`: the first letter whose box holds the point, or -1
      when there is none or that first letter is a space. */
  method HitTestLetter(bounds: seq<LetterBox>, chars: seq<char>, x: real, y: real) returns (idx: int)
    ensures idx == -1 || (FirstCover(bounds, x, y, idx) && !IsSpaceAt(chars, idx))
    ensures idx == -1 ==> forall i :: FirstCover(bounds, x, y, i) ==> IsSpaceAt(chars, i)
  {
    var i := 0;
    while i < |bounds|
      invariant 0 <= i <= |bounds|
      invariant forall j :: 0 <= j < i ==> !Covers(bounds[j], x, y)
    {
      var b := bounds[i];
      if x >= b.x && x <= b.x + b.width && y >= b.y && y <= b.y + b.height {
        if i < |chars| && chars[i] == ' ' {
          return -1;
        }
        return i;
      }
      i := i + 1;
    }
    return -1;
  }

  // ------------------------------------------------------------ particles

  datatype Particle = Particle(x: real, y: real, vx: real, vy: real, r: real)

  datatype Burst = Burst(x: real, y: real, vx: real, vy: real, life: real, r: real)

  /** The most burst particles kept at once. */
  const BurstCap: nat := 220

  /** Particles per burst: more for the large heading. */
  function BurstCount(size: Size): (n: nat)
    ensures n == 26 || n == 18
    ensures n == 26 <==> size == Hero
  {
    if size == Hero then 26 else 18
  }

  /** The `k`-th particle of a burst around (`cx`, `cy`): five draws per
      particle (angle, speed, two offsets, radius); `cosOf`/`sinOf` give
      the cosine and sine of the angle a draw stands for. */
  function Spark(cx: real, cy: real, rand: nat -> Unit, cosOf: Unit -> real, sinOf: Unit -> real, k: nat): (b: Burst)
    ensures b.life == 1.0 && Abs(b.x - cx) <= 3.0 && Abs(b.y - cy) <= 3.0 && 0.8 <= b.r < 2.6
  {
    var ang := rand(5 * k);
    var spd := 1.2 + rand(5 * k + 1) * 2.2;
    Burst(cx + (rand(5 * k + 2) - 0.5) * 6.0, cy + (rand(5 * k + 3) - 0.5) * 6.0,
          cosOf(ang) * spd, sinOf(ang) * spd, 1.0, 0.8 + rand(5 * k + 4) * 1.8)
  }

  /** The first `count` sparks around (`cx`, `cy`). */
  function Sparks(cx: real, cy: real, count: nat, rand: nat -> Unit, cosOf: Unit -> real, sinOf: Unit -> real): (r: seq<Burst>)
    ensures |r| == count
    ensures forall k :: 0 <= k < count ==> r[k] == Spark(cx, cy, rand, cosOf, sinOf, k)
  {
    seq(count, k requires k >= 0 => Spark(cx, cy, rand, cosOf, sinOf, k))
  }

  /** The particles of one burst around the centre of `box`. */
  function Explosion(box: LetterBox, size: Size, rand: nat -> Unit, cosOf: Unit -> real, sinOf: Unit -> real): (r: seq<Burst>)
    ensures |r| == BurstCount(size)
  {
    Sparks(box.x + box.width / 2.0, box.y + box.height / 2.0, BurstCount(size), rand, cosOf, sinOf)
  }

  /** Every particle of a burst starts at full life within 3 px of the
      letter's centre. */
  lemma ExplosionShape(box: LetterBox, size: Size, rand: nat -> Unit, cosOf: Unit -> real, sinOf: Unit -> real)
    ensures var cx, cy := box.x + box.width / 2.0, box.y + box.height / 2.0;
            forall b :: b in Explosion(box, size, rand, cosOf, sinOf) ==>
              b.life == 1.0 && Abs(b.x - cx) <= 3.0 && Abs(b.y - cy) <= 3.0
  {
    var cx, cy := box.x + box.width / 2.0, box.y + box.height / 2.0;
    var r := Explosion(box, size, rand, cosOf, sinOf);
    forall k | 0 <= k < |r|
      ensures r[k].life == 1.0 && Abs(r[k].x - cx) <= 3.0 && Abs(r[k].y - cy) <= 3.0
    {
      assert r[k] == Spark(cx, cy, rand, cosOf, sinOf, k);
    }
  }

  /** `splice(0, length - 220)`: drop the oldest particles beyond the cap. */
  function Capped(bs: seq<Burst>): (r: seq<Burst>)
    ensures |r| <= BurstCap
    ensures |bs| <= BurstCap ==> r == bs
    ensures |bs| > BurstCap ==> |r| == BurstCap
    ensures forall i :: 0 <= i < |r| ==> r[i] == bs[|bs| - |r| + i]
  {
    if |bs| > BurstCap then bs[|bs| - BurstCap..] else bs
  }

  /** However many particles there were, a spawned burst is kept whole. */
  lemma NewestBurstKept(prior: seq<Burst>, spawned: seq<Burst>)
    requires |spawned| <= BurstCap
    ensures var r := Capped(prior + spawned);
            |r| >= |spawned| && r[|r| - |spawned|..] == spawned
  {
    var all := prior + spawned;
    assert all[|all| - |spawned|..] == spawned;
    if |all| > BurstCap {
      var r := all[|all| - BurstCap..];
      assert r[|r| - |spawned|..] == all[|all| - |spawned|..];
    }
  }

  /** One frame of an ambient particle: drift at `speed`, bounce off the
      edges and stay inside the `w` by `h` area. */
  function Drift(p: Particle, speed: real, w: real, h: real): (q: Particle)
    ensures w >= 0.0 ==> 0.0 <= q.x <= w
    ensures h >= 0.0 ==> 0.0 <= q.y <= h
    ensures q.r == p.r && Abs(q.vx) == Abs(p.vx) && Abs(q.vy) == Abs(p.vy)
  {
    var x := p.x + p.vx * speed;
    var y := p.y + p.vy * speed;
    var vx := if x < 0.0 || x > w then -p.vx else p.vx;
    var vy := if y < 0.0 || y > h then -p.vy else p.vy;
    Particle(Clamp(x, 0.0, w), Clamp(y, 0.0, h), vx, vy, p.r)
  }

  /** Life lost by a burst particle each frame. */
  const LifeStep: real := 0.03

  /** One frame of a burst particle: move, slow down, fade. */
  function Aged(b: Burst): (c: Burst)
    ensures c.life == b.life - LifeStep
  {
    Burst(b.x + b.vx, b.y + b.vy, b.vx * 0.985, b.vy * 0.985, b.life - LifeStep, b.r)
  }

  /** The burst particles still alive, in order. */
  function Survivors(bs: seq<Burst>): (r: seq<Burst>)
    ensures |r| <= |bs|
    ensures forall i :: 0 <= i < |r| ==> r[i].life > 0.0
    ensures forall b :: b in r <==> b in bs && b.life > 0.0
  {
    if bs == [] then []
    else if bs[0].life > 0.0 then [bs[0]] + Survivors(bs[1..])
    else Survivors(bs[1..])
  }

  /** Dropping the dead keeps the order of the living: it works piece by
      piece over a concatenation. */
  lemma {:induction false} SurvivorsAppend(a: seq<Burst>, b: seq<Burst>)
    ensures Survivors(a + b) == Survivors(a) + Survivors(b)
  {
    var s := a + b;
    if a == [] {
      assert s == b;
    } else {
      assert s[0] == a[0] && s[1..] == a[1..] + b;
      SurvivorsAppend(a[1..], b);
      if a[0].life > 0.0 {
        calc {
          Survivors(s);
          [a[0]] + Survivors(a[1..] + b);
          [a[0]] + (Survivors(a[1..]) + Survivors(b));
          ([a[0]] + Survivors(a[1..])) + Survivors(b);
        }
      } else {
        assert Survivors(s) == Survivors(a[1..] + b);
      }
    }
  }

  /** A list of live particles survives whole, in order. */
  lemma {:induction false} AllAliveSurvive(bs: seq<Burst>)
    requires forall i :: 0 <= i < |bs| ==> bs[i].life > 0.0
    ensures Survivors(bs) == bs
  {
    if bs != [] {
      AllAliveSurvive(bs[1..]);
    }
  }

  /** One frame of every ambient particle. */
  function Drifted(ps: seq<Particle>, speed: real, w: real, h: real): (r: seq<Particle>)
    ensures |r| == |ps|
    ensures forall i :: 0 <= i < |r| ==> r[i] == Drift(ps[i], speed, w, h)
    ensures w >= 0.0 && h >= 0.0 ==> forall i :: 0 <= i < |r| ==> 0.0 <= r[i].x <= w && 0.0 <= r[i].y <= h
  {
    seq(|ps|, i requires 0 <= i < |ps| => Drift(ps[i], speed, w, h))
  }

  /** One frame of every burst particle, before the dead are dropped. */
  function AgedAll(bs: seq<Burst>): (r: seq<Burst>)
    ensures |r| == |bs|
    ensures forall i :: 0 <= i < |r| ==> r[i] == Aged(bs[i])
  {
    seq(|bs|, i requires 0 <= i < |bs| => Aged(bs[i]))
  }

  /** `k` frames of ageing. */
  function AgedTimes(b: Burst, k: nat): Burst
    decreases k
  {
    if k == 0 then b else AgedTimes(Aged(b), k - 1)
  }

  /** A spawned burst particle fades out within 34 frames. */
  lemma {:induction false} BurstLifetime(b: Burst, k: nat)
    ensures AgedTimes(b, k).life == b.life - k as real * LifeStep
    ensures b.life == 1.0 && k >= 34 ==> AgedTimes(b, k).life <= 0.0
    decreases k
  {
    if k > 0 {
      BurstLifetime(Aged(b), k - 1);
    }
  }

  /** `createParticles`: `count` ambient particles spread over the area. */
  method CreateParticles(count: nat, w: real, h: real, rand: nat -> Unit) returns (arr: seq<Particle>)
    ensures |arr| == count
    ensures w >= 0.0 ==> forall i :: 0 <= i < count ==> 0.0 <= arr[i].x <= w
    ensures h >= 0.0 ==> forall i :: 0 <= i < count ==> 0.0 <= arr[i].y <= h
    ensures forall i :: 0 <= i < count ==> Abs(arr[i].vx) <= 0.175 && Abs(arr[i].vy) <= 0.175
  {
    arr := [];
    var i := 0;
    while i < count
      invariant 0 <= i <= count && |arr| == i
      invariant w >= 0.0 ==> forall j :: 0 <= j < i ==> 0.0 <= arr[j].x <= w
      invariant h >= 0.0 ==> forall j :: 0 <= j < i ==> 0.0 <= arr[j].y <= h
      invariant forall j :: 0 <= j < i ==> Abs(arr[j].vx) <= 0.175 && Abs(arr[j].vy) <= 0.175
    {
      var rx: real, ry: real, rvx: real, rvy: real, rr: real := rand(5 * i), rand(5 * i + 1), rand(5 * i + 2), rand(5 * i + 3), rand(5 * i + 4);
      ShareOf(rx, w);
      ShareOf(ry, h);
      arr := arr + [Particle(rx * w, ry * h, (rvx - 0.5) * 0.35, (rvy - 0.5) * 0.35, 0.7 + rr * 1.2)];
      i := i + 1;
    }
  }

  /** A draw in [0, 1) times a non-negative extent stays inside it. */
  lemma ShareOf(t: real, w: real)
    requires 0.0 <= t <= 1.0
    ensures w >= 0.0 ==> 0.0 <= t * w <= w
  {
    if w >= 0.0 {
      MulNonNeg(t, w);
      MulNonNeg(1.0 - t, w);
    }
  }

  /** Ambient particles at the reference size, per heading size. */
  function AmbientBase(size: Size): (n: int)
    ensures 40 <= n <= 70
    ensures n == 70 <==> size == Hero
    ensures n == 40 <==> size == Small
  {
    match size
    case Hero => 70
    case SectionSize => 55
    case Small => 40
  }

  /** The ambient particle count: the base scaled by `areaFactor` (the
      square root of the host's area over 800 by 160), rounded and kept
      between 30 and 120. */
  function AmbientCount(size: Size, areaFactor: real): (n: nat)
    ensures 30 <= n <= 120
    ensures 30 <= Round(AmbientBase(size) as real * areaFactor) <= 120 ==>
              n == Round(AmbientBase(size) as real * areaFactor)
  {
    ClampInt(Round(AmbientBase(size) as real * areaFactor), 30, 120)
  }

  /** A larger host never gets fewer ambient particles. */
  lemma AmbientCountMonotone(size: Size, a1: real, a2: real)
    requires a1 <= a2
    ensures AmbientCount(size, a1) <= AmbientCount(size, a2)
  {
    var base := AmbientBase(size) as real;
    assert base * a1 <= base * a2;
    assert (base * a1 + 0.5).Floor <= (base * a2 + 0.5).Floor;
  }

  /** The area factor is the square root of the host's area over 800 by
      160 px. */
  predicate IsAreaFactor(areaFactor: real, w: real, h: real) {
    areaFactor >= 0.0 && areaFactor * areaFactor == w * h / 128000.0
  }

  lemma SquareStrictlyBelow(x: real, y: real)
    requires 0.0 <= x < y
    ensures x * x < y * y
  {
    var d, e := y - x, y + x;
    assert d * e == y * y - x * x;
    assert d * e > 0.0;
  }

  /** Square roots keep the order of their squares. */
  lemma RootsOrdered(a1: real, a2: real)
    requires a1 >= 0.0 && a2 >= 0.0 && a1 * a1 <= a2 * a2
    ensures a1 <= a2
  {
    if a1 > a2 {
      SquareStrictlyBelow(a2, a1);
    }
  }

  /** A host at least as wide and as tall never gets fewer ambient
      particles. */
  lemma AmbientCountGrowsWithHost(size: Size, w1: real, h1: real, a1: real, w2: real, h2: real, a2: real)
    requires 1.0 <= w1 <= w2 && 1.0 <= h1 <= h2
    requires IsAreaFactor(a1, w1, h1) && IsAreaFactor(a2, w2, h2)
    ensures AmbientCount(size, a1) <= AmbientCount(size, a2)
  {
    ScaleBelow(w1, w2, h1);
    ScaleBelow(h1, h2, w2);
    assert w1 * h1 <= w2 * h2;
    assert w1 * h1 / 128000.0 <= w2 * h2 / 128000.0;
    RootsOrdered(a1, a2);
    AmbientCountMonotone(size, a1, a2);
  }

  // ------------------------------------------------------------ the component

  class FxTitleComponent {
    const size: Size
    /** Whether the canvas produced a 2D context. */
    const hasContext: bool

    var chars: seq<char>
    var bounds: seq<LetterBox>
    var activeIndex: int
    /** Letters carrying the `is-active` class. */
    var marked: set<int>

    var pointerX: real
    var pointerY: real
    var inside: bool
    var intensity: real
    var targetIntensity: real

    var ambient: seq<Particle>
    var bursts: seq<Burst>

    var running: bool
    var reduceMotion: bool
    var isScrolling: bool
    /** Whether the 140 ms scroll-settle timer is pending. */
    var scrollTimer: bool
    /** Calls of `drawOnce`, the single frame drawn outside the loop; the
        call draws only when the canvas has a 2D context (`hasContext`). */
    var drawOnceCalls: nat

    /** At most one letter is marked, and only the active one. */
    ghost predicate Valid()
      reads this
    {
      marked <= {activeIndex} && (activeIndex >= 0 || marked == {})
    }

    constructor (size: Size, hasContext: bool)
      ensures Valid()
      ensures this.size == size && this.hasContext == hasContext
      ensures chars == [] && bounds == [] && activeIndex == -1 && marked == {}
      ensures !inside && intensity == 0.0 && targetIntensity == 0.0
      ensures ambient == [] && bursts == []
      ensures !running && !reduceMotion && !isScrolling && !scrollTimer && drawOnceCalls == 0
    {
      this.size := size;
      this.hasContext := hasContext;
      chars := [];
      bounds := [];
      activeIndex := -1;
      marked := {};
      pointerX, pointerY := 0.0, 0.0;
      inside := false;
      intensity, targetIntensity := 0.0, 0.0;
      ambient := [];
      bursts := [];
      running := false;
      reduceMotion := false;
      isScrolling := false;
      scrollTimer := false;
      drawOnceCalls := 0;
    }

    /** `computeLetterBounds`: each rendered letter's rectangle, taken
        relative to the host's top-left corner. */
    method ComputeLetterBounds(letterRects: seq<LetterBox>, hostLeft: real, hostTop: real)
      modifies this`bounds
      ensures |bounds| == |letterRects|
      ensures forall i :: 0 <= i < |bounds| ==>
                bounds[i].x == letterRects[i].x - hostLeft && bounds[i].y == letterRects[i].y - hostTop &&
                bounds[i].width == letterRects[i].width && bounds[i].height == letterRects[i].height
    {
      bounds := seq(|letterRects|, i requires 0 <= i < |letterRects| =>
                  LetterBox(letterRects[i].x - hostLeft, letterRects[i].y - hostTop,
                            letterRects[i].width, letterRects[i].height));
    }

    /** `ngAfterViewInit`: the reduced-motion preference is read, the
        letters are measured, the ambient field is seeded and one frame is
        drawn. The media query, the rendered rectangles and the host's
        geometry arrive as inputs. */
    method AfterViewInit(prefersReducedMotion: bool, letterRects: seq<LetterBox>, hostLeft: real, hostTop: real,
                         hostWidth: real, hostHeight: real, areaFactor: real, rand: nat -> Unit)
      requires IsAreaFactor(areaFactor, Max(1.0, hostWidth), Max(1.0, hostHeight))
      modifies this`reduceMotion, this`bounds, this`ambient, this`drawOnceCalls
      ensures reduceMotion == prefersReducedMotion
      ensures |bounds| == |letterRects|
      ensures forall i :: 0 <= i < |bounds| ==>
                bounds[i].x == letterRects[i].x - hostLeft && bounds[i].y == letterRects[i].y - hostTop &&
                bounds[i].width == letterRects[i].width && bounds[i].height == letterRects[i].height
      ensures 30 <= |ambient| <= 120 && |ambient| == AmbientCount(size, areaFactor)
      ensures forall i :: 0 <= i < |ambient| ==>
                0.0 <= ambient[i].x <= Max(1.0, hostWidth) && 0.0 <= ambient[i].y <= Max(1.0, hostHeight)
      ensures drawOnceCalls == old(drawOnceCalls) + 1
    {
      reduceMotion := prefersReducedMotion;
      ComputeLetterBounds(letterRects, hostLeft, hostTop);
      ReseedAmbient(hostWidth, hostHeight, areaFactor, rand);
      drawOnceCalls := drawOnceCalls + 1;
    }

    /** `ngOnChanges`: a new `text` is split into its characters. */
    method NgOnChanges(changed: set<string>, text: Option<string>)
      modifies this`chars
      ensures "text" in changed ==> chars == text.GetOr("") && |chars| == |text.GetOr("")|
      ensures "text" !in changed ==> chars == old(chars)
    {
      if "text" in changed {
        chars := text.GetOr("");
      }
    }

    method ClearActiveLetter()
      requires Valid()
      modifies this`activeIndex, this`marked
      ensures Valid()
      ensures activeIndex == -1 && marked == {}
    {
      if activeIndex >= 0 {
        marked := marked - {activeIndex};
      }
      activeIndex := -1;
    }

    /** `setActiveLetter(idx)`: exactly that letter is marked, when it is
        rendered. */
    method SetActiveLetter(idx: int)
      requires Valid() && idx >= 0
      modifies this`activeIndex, this`marked
      ensures Valid()
      ensures activeIndex == idx
      ensures marked == (if idx < |chars| then {idx} else {})
    {
      ClearActiveLetter();
      activeIndex := idx;
      if idx < |chars| {
        marked := marked + {idx};
      }
    }

    method Start()
      modifies this`running
      ensures running
    {
      if running {
        return;
      }
      running := true;
    }

    method Stop()
      modifies this`running
      ensures !running
    {
      if !running {
        return;
      }
      running := false;
    }

    /** `ensureRunning`: under reduced motion draw a single frame; while
        the page scrolls do nothing; otherwise make sure the loop runs. */
    method EnsureRunning()
      modifies this`running, this`drawOnceCalls
      ensures reduceMotion ==> running == old(running) && drawOnceCalls == old(drawOnceCalls) + 1
      ensures !reduceMotion && isScrolling ==> running == old(running) && drawOnceCalls == old(drawOnceCalls)
      ensures !reduceMotion && !isScrolling ==> running && drawOnceCalls == old(drawOnceCalls)
    {
      if reduceMotion {
        drawOnceCalls := drawOnceCalls + 1;
        return;
      }
      if isScrolling {
        return;
      }
      if !running {
        Start();
      }
    }

    /** `explodeAtLetter(idx)`: a burst around the letter's centre, then
        the list is cut back to the newest 220. */
    method ExplodeAtLetter(idx: int, rand: nat -> Unit, cosOf: Unit -> real, sinOf: Unit -> real)
      modifies this`bursts
      ensures !(0 <= idx < |bounds|) ==> bursts == old(bursts)
      ensures 0 <= idx < |bounds| ==>
                bursts == Capped(old(bursts) + Explosion(bounds[idx], size, rand, cosOf, sinOf))
    {
      if !(0 <= idx < |bounds|) {
        return;
      }
      var b := bounds[idx];
      var cx := b.x + b.width / 2.0;
      var cy := b.y + b.height / 2.0;
      ghost var spawned := Explosion(b, size, rand, cosOf, sinOf);
      assert spawned == Sparks(cx, cy, BurstCount(size), rand, cosOf, sinOf);
      SpawnSparks(cx, cy, BurstCount(size), rand, cosOf, sinOf);
      bursts := Capped(bursts);
    }

    /** The spawning loop of a burst: `count` sparks pushed in order. */
    method SpawnSparks(cx: real, cy: real, count: nat, rand: nat -> Unit, cosOf: Unit -> real, sinOf: Unit -> real)
      modifies this`bursts
      ensures bursts == old(bursts) + Sparks(cx, cy, count, rand, cosOf, sinOf)
    {
      ghost var prior := bursts;
      ghost var spawned := Sparks(cx, cy, count, rand, cosOf, sinOf);
      var i := 0;
      while i < count
        invariant 0 <= i <= count
        invariant bursts == prior + spawned[..i]
        modifies this`bursts
      {
        assert spawned[..i + 1] == spawned[..i] + [Spark(cx, cy, rand, cosOf, sinOf, i)];
        bursts := bursts + [Spark(cx, cy, rand, cosOf, sinOf, i)];
        i := i + 1;
      }
      assert spawned[..count] == spawned;
    }

    /** The pointer moves to (`clientX`, `clientY`); the host's corner is
        at (`hostLeft`, `hostTop`). Entering a new letter makes it active
        and, with motion allowed, bursts it; a gap keeps the old letter. */
    method OnPointerMove(clientX: real, clientY: real, hostLeft: real, hostTop: real,
                         rand: nat -> Unit, cosOf: Unit -> real, sinOf: Unit -> real)
      requires Valid()
      modifies this`pointerX, this`pointerY, this`activeIndex, this`marked, this`bursts,
               this`running, this`drawOnceCalls
      ensures Valid()
      ensures pointerX == clientX - hostLeft && pointerY == clientY - hostTop
      ensures activeIndex == old(activeIndex) ||
              (FirstCover(bounds, pointerX, pointerY, activeIndex) && !IsSpaceAt(chars, activeIndex))
      ensures forall i :: FirstCover(bounds, pointerX, pointerY, i) && !IsSpaceAt(chars, i) ==>
                activeIndex == i
      ensures activeIndex == old(activeIndex) ==> bursts == old(bursts) && marked == old(marked)
      ensures activeIndex != old(activeIndex) ==>
                marked == (if activeIndex < |chars| then {activeIndex} else {})
      ensures activeIndex != old(activeIndex) && reduceMotion ==> bursts == old(bursts)
      ensures activeIndex != old(activeIndex) && !reduceMotion ==>
                0 <= activeIndex < |bounds| &&
                bursts == Capped(old(bursts) + Explosion(bounds[activeIndex], size, rand, cosOf, sinOf))
      ensures reduceMotion ==> running == old(running) && drawOnceCalls == old(drawOnceCalls) + 1
      ensures !reduceMotion && isScrolling ==> running == old(running) && drawOnceCalls == old(drawOnceCalls)
      ensures !reduceMotion && !isScrolling ==> running && drawOnceCalls == old(drawOnceCalls)
    {
      pointerX := clientX - hostLeft;
      pointerY := clientY - hostTop;
      var idx := HitTestLetter(bounds, chars, pointerX, pointerY);
      if idx != activeIndex && idx != -1 {
        SetActiveLetter(idx);
        if !reduceMotion {
          ExplodeAtLetter(idx, rand, cosOf, sinOf);
        }
      }
      EnsureRunning();
    }

    /** `pointerenter` and `focus`. */
    method OnEnter()
      modifies this`inside, this`targetIntensity, this`running, this`drawOnceCalls
      ensures inside && targetIntensity == 1.0
      ensures reduceMotion ==> running == old(running) && drawOnceCalls == old(drawOnceCalls) + 1
      ensures !reduceMotion && isScrolling ==> running == old(running) && drawOnceCalls == old(drawOnceCalls)
      ensures !reduceMotion && !isScrolling ==> running && drawOnceCalls == old(drawOnceCalls)
    {
      inside := true;
      targetIntensity := 1.0;
      EnsureRunning();
    }

    /** `pointerleave` and `blur`: no letter stays active. */
    method OnLeave()
      requires Valid()
      modifies this`inside, this`targetIntensity, this`activeIndex, this`marked, this`running, this`drawOnceCalls
      ensures Valid()
      ensures !inside && targetIntensity == 0.0 && activeIndex == -1 && marked == {}
      ensures reduceMotion ==> running == old(running) && drawOnceCalls == old(drawOnceCalls) + 1
      ensures !reduceMotion && isScrolling ==> running == old(running) && drawOnceCalls == old(drawOnceCalls)
      ensures !reduceMotion && !isScrolling ==> running && drawOnceCalls == old(drawOnceCalls)
    {
      inside := false;
      targetIntensity := 0.0;
      ClearActiveLetter();
      EnsureRunning();
    }

    /** A scroll of the page pauses the loop and (re)arms the settle timer. */
    method OnScroll()
      modifies this`isScrolling, this`running, this`scrollTimer
      ensures isScrolling && !running && scrollTimer
    {
      isScrolling := true;
      Stop();
      scrollTimer := true;
    }

    /** The settle timer: scrolling is over; resume if there is still
        something to show. */
    method ScrollSettled()
      requires scrollTimer
      modifies this`isScrolling, this`scrollTimer, this`running, this`drawOnceCalls
      ensures !isScrolling && !scrollTimer
      ensures (inside || |bursts| > 0) && reduceMotion ==>
                running == old(running) && drawOnceCalls == old(drawOnceCalls) + 1
      ensures (inside || |bursts| > 0) && !reduceMotion ==> running && drawOnceCalls == old(drawOnceCalls)
      ensures !inside && |bursts| == 0 ==> running == old(running) && drawOnceCalls == old(drawOnceCalls)
    {
      scrollTimer := false;
      isScrolling := false;
      if inside || |bursts| > 0 {
        EnsureRunning();
      }
    }

    /** `reseedAmbient`: a spawned ambient field for a host of the given
        size; `areaFactor` is the square root the source computes. */
    method ReseedAmbient(hostWidth: real, hostHeight: real, areaFactor: real, rand: nat -> Unit)
      requires IsAreaFactor(areaFactor, Max(1.0, hostWidth), Max(1.0, hostHeight))
      modifies this`ambient
      ensures 30 <= |ambient| <= 120 && |ambient| == AmbientCount(size, areaFactor)
      ensures forall i :: 0 <= i < |ambient| ==>
                0.0 <= ambient[i].x <= Max(1.0, hostWidth) && 0.0 <= ambient[i].y <= Max(1.0, hostHeight)
    {
      var w := Max(1.0, hostWidth);
      var h := Max(1.0, hostHeight);
      var target := AmbientCount(size, areaFactor);
      ambient := CreateParticles(target, w, h, rand);
    }

    /** The ambient loop of a frame: every particle drifts once. */
    method DriftAmbient(speed: real, w: real, h: real)
      modifies this`ambient
      ensures ambient == Drifted(old(ambient), speed, w, h)
    {
      ghost var before := ambient;
      var i := 0;
      while i < |ambient|
        invariant 0 <= i <= |ambient| == |before|
        invariant forall j :: 0 <= j < i ==> ambient[j] == Drift(before[j], speed, w, h)
        invariant forall j :: i <= j < |ambient| ==> ambient[j] == before[j]
        modifies this`ambient
      {
        ambient := ambient[i := Drift(ambient[i], speed, w, h)];
        i := i + 1;
      }
    }

    /** The burst loop of a frame: every burst particle ages once. */
    method AgeBursts()
      modifies this`bursts
      ensures bursts == AgedAll(old(bursts))
    {
      ghost var before := bursts;
      var k := 0;
      while k < |bursts|
        invariant 0 <= k <= |bursts| == |before|
        invariant forall j :: 0 <= j < k ==> bursts[j] == Aged(before[j])
        invariant forall j :: k <= j < |bursts| ==> bursts[j] == before[j]
        modifies this`bursts
      {
        bursts := bursts[k := Aged(bursts[k])];
        k := k + 1;
      }
    }

    /** One frame of the loop on a host of the given size: the glow eases
        a tenth of the way to its target, the ambient field drifts at a
        speed that grows with the glow, burst particles age and the dead
        ones are dropped; with no glow, no bursts and the pointer away,
        the loop stops. */
    method Tick(hostWidth: real, hostHeight: real)
      modifies this`intensity, this`ambient, this`bursts, this`running
      ensures !hasContext ==>
                intensity == old(intensity) && ambient == old(ambient) &&
                bursts == old(bursts) && running == old(running)
      ensures hasContext ==>
                intensity == Lerp(old(intensity), targetIntensity, 0.1) &&
                ambient == Drifted(old(ambient), 0.35 + intensity * 0.6, Max(1.0, hostWidth), Max(1.0, hostHeight)) &&
                bursts == Survivors(AgedAll(old(bursts))) &&
                (intensity < 0.01 && bursts == [] && !inside ==> !running) &&
                (!(intensity < 0.01 && bursts == [] && !inside) ==> running == old(running))
    {
      if !hasContext {
        return;
      }
      var w := Max(1.0, hostWidth);
      var h := Max(1.0, hostHeight);
      intensity := Lerp(intensity, targetIntensity, 0.1);
      var speed := 0.35 + intensity * 0.6;
      DriftAmbient(speed, w, h);
      AgeBursts();
      bursts := Survivors(bursts);
      var idle := intensity < 0.01 && |bursts| == 0 && !inside;
      if idle {
        Stop();
      }
    }
  }
}
