/**
  The interactive flavor wheel: a canvas with a hub, an inner ring of
  sub-flavors and an outer ring of flavor categories.  A pointer position is
  given by its distance from the canvas centre and by its angle as a fraction
  of a full turn (the angle `atan2` gives, normalized into [0, 2π), divided by
  2π); the hit test maps it to the label under it, the click handler toggles
  that label in the caller's selection, and mouse moves keep the hovered label.
 */
module FlavorWheel {
  import opened Options
  import opened FlavorToggle

  /** A category of the outer ring with the sub-flavors of its inner-ring sector, in angular order. */
  datatype Category = Category(name: string, color: string, subFlavors: seq<string>)

  /** The wheel's fixed configuration: eight categories of five sub-flavors each. */
  const FlavorCategories: seq<Category> := [
    Category("花香", "#FF6B9D", ["茉莉", "桂花", "玫瑰", "蘭花", "栀子"]),
    Category("果香", "#FF9F40", ["柑橘", "蘋果", "桃子", "梨子", "熱帶水果"]),
    Category("蜜香", "#FFCD56", ["龍眼蜜", "荔枝蜜", "花蜜", "蜂蜜", "甘甜"]),
    Category("木香", "#8B4513", ["檀木", "樟木", "松木", "竹香", "木質"]),
    Category("焙火", "#D2691E", ["炭火", "烘焙", "焦糖", "堅果", "烟熏"]),
    Category("陳香", "#708090", ["倉味", "陳韻", "老味", "濕倉", "乾倉"]),
    Category("草本", "#90EE90", ["青草", "薄荷", "藥草", "清香", "鮮葉"]),
    Category("礦物", "#4682B4", ["岩石", "泥土", "海水", "鹽分", "金屬"])
  ]

  /**
    A configuration the hit test can index into: at least one category, and
    every category has at least one sub-flavor.
   */
  predicate WellFormed(cats: seq<Category>)
  {
    |cats| > 0 && forall i :: 0 <= i < |cats| ==> |cats[i].subFlavors| > 0
  }

  /**
    The label at position `k` of category `i`: the category's own name at 0,
    its sub-flavors at 1 .. M.
   */
  function LabelAt(cats: seq<Category>, i: int, k: int): string
    requires 0 <= i < |cats| && 0 <= k <= |cats[i].subFlavors|
  {
    if k == 0 then cats[i].name else cats[i].subFlavors[k - 1]
  }

  // ---------------------------------------------------------------- geometry

  /** The drawing surface's pixel size. */
  datatype Canvas = Canvas(width: real, height: real)

  /** The canvas the component mounts. */
  const WheelCanvas: Canvas := Canvas(300.0, 300.0)

  /** The ring radii: outer edge, boundary between the rings, and the hub. */
  datatype Rings = Rings(radius: real, innerRadius: real, hubRadius: real)

  function Min(a: real, b: real): real
  {
    if a <= b then a else b
  }

  /**
    The radii both the drawing and the hit test derive from the canvas: 20
    pixels inside the nearer edge, the ring boundary at 0.4 of that, and the
    hub at half the ring boundary.
   */
  function RingsOf(c: Canvas): (g: Rings)
    ensures g.radius + 20.0 <= c.width / 2.0 && g.radius + 20.0 <= c.height / 2.0
    ensures g.radius + 20.0 == c.width / 2.0 || g.radius + 20.0 == c.height / 2.0
    ensures g.innerRadius == 0.4 * g.radius && g.hubRadius == 0.5 * g.innerRadius
  {
    var radius := Min(c.width / 2.0, c.height / 2.0) - 20.0;
    var innerRadius := radius * 0.4;
    Rings(radius, innerRadius, innerRadius * 0.5)
  }

  /** On the 300×300 canvas the rings are at 130, 52 and 26 pixels. */
  lemma WheelCanvasRings()
    ensures RingsOf(WheelCanvas) == Rings(130.0, 52.0, 26.0)
  {
  }

  /** A positive canvas large enough for the margin keeps the hub inside the inner ring inside the outer ring. */
  lemma RingsNested(c: Canvas)
    requires c.width > 40.0 && c.height > 40.0
    ensures 0.0 < RingsOf(c).hubRadius < RingsOf(c).innerRadius < RingsOf(c).radius
  {
  }

  // ------------------------------------------------------- index arithmetic

  /** `floor(fraction · N)`: the sector of the `N` equal sectors that the angle falls in. */
  function SegmentIndex(fraction: real, n: nat): (i: int)
    requires 0.0 <= fraction < 1.0 && n > 0
    ensures 0 <= i < n
  {
    FloorBelow(fraction, n);
    (fraction * n as real).Floor
  }

  /**
    Sector `i` is exactly the half-open span [i/N, (i+1)/N) of the turn, so an
    angle on a boundary belongs to the sector that starts there.
   */
  lemma SectorSpan(fraction: real, n: nat, i: int)
    requires 0.0 <= fraction < 1.0 && n > 0
    ensures SegmentIndex(fraction, n) == i <==> i as real / n as real <= fraction < (i + 1) as real / n as real
  {
    var N := n as real;
    FloorIff(fraction * N, i);
    DivLeIff(i as real, N, fraction);
    DivLeIff((i + 1) as real, N, fraction);
  }

  /** The floor of `x` is `i` exactly when `x` lies in [i, i + 1). */
  lemma FloorIff(x: real, i: int)
    ensures x.Floor == i <==> i as real <= x < (i + 1) as real
  {
    assert x.Floor as real <= x < x.Floor as real + 1.0;
  }

  /** Multiplying both sides by a positive number keeps `<=`. */
  lemma ScaleLe(q: real, f: real, N: real)
    requires N > 0.0
    ensures q <= f <==> q * N <= f * N
  {
    assert f * N - q * N == (f - q) * N;
  }

  /** Dividing by a positive number on the left is multiplying by it on the right. */
  lemma DivLeIff(a: real, N: real, f: real)
    requires N > 0.0
    ensures a / N <= f <==> a <= f * N
  {
    var q := a / N;
    assert q * N == a;
    ScaleLe(q, f, N);
  }

  /** The floor of a fraction in [0, 1) of a positive count lies in [0, count). */
  lemma FloorBelow(w: real, m: nat)
    requires 0.0 <= w < 1.0 && m > 0
    ensures 0 <= (w * m as real).Floor < m
  {
    var y := w * m as real;
    BelowScale(w, m as real);
    assert y.Floor as real <= y < y.Floor as real + 1.0;
  }

  /** A fraction in [0, 1) of a positive number lies in [0, that number). */
  lemma BelowScale(w: real, M: real)
    requires 0.0 <= w < 1.0 && M > 0.0
    ensures 0.0 <= w * M < M
  {
    ScaleLe(0.0, w, M);
    ScaleLe(1.0, w, M);
  }

  /**
    The sub-flavor index inside sector `SegmentIndex(fraction, n)` of `m`
    sub-flavors.  With the angle at `fraction · 2π`, the hit test's ratio
    `relativeAngle / categoryAngleRange` is `fraction · N − segmentIndex`.
   */
  function SubIndex(fraction: real, n: nat, m: nat): (k: int)
    requires 0.0 <= fraction < 1.0 && n > 0 && m > 0
    ensures 0 <= k < m
  {
    var x := fraction * n as real;
    var i := SegmentIndex(fraction, n);
    assert i as real <= x < i as real + 1.0 by {
      assert i == x.Floor;
    }
    FloorBelow(x - i as real, m);
    ((x - i as real) * m as real).Floor
  }

  /**
    Sub-flavor `k` of sector `i` is exactly the span [(i + k/M)/N, (i + (k+1)/M)/N)
    of the turn: the sector is split into `M` equal half-open parts in order.
   */
  lemma SubSectorSpan(fraction: real, n: nat, m: nat, k: int)
    requires 0.0 <= fraction < 1.0 && n > 0 && m > 0
    ensures var i := SegmentIndex(fraction, n) as real;
      SubIndex(fraction, n, m) == k <==>
        (i + k as real / m as real) / n as real <= fraction < (i + (k + 1) as real / m as real) / n as real
  {
    var N, M := n as real, m as real;
    var i := SegmentIndex(fraction, n) as real;
    var within := fraction * N - i;
    var y := within * M;
    FloorIff(y, k);
    BoundaryScaled(i, N, M, k as real, fraction, within, y);
    BoundaryScaled(i, N, M, (k + 1) as real, fraction, within, y);
  }

  /** Moving the sub-sector boundary `(i + t/M)/N` through the two scalings by `N` and `M`. */
  lemma BoundaryScaled(i: real, N: real, M: real, t: real, fraction: real, within: real, y: real)
    requires N > 0.0 && M > 0.0 && within == fraction * N - i && y == within * M
    ensures (i + t / M) / N <= fraction <==> t <= y
  {
    DivLeIff(i + t / M, N, fraction);
    DivLeIff(t, M, within);
  }

  // ------------------------------------------------------------- hit test

  /**
    The label under the pointer, or `None`.  Every ring comparison is strict:
    the hub, the circle at the ring boundary, the hub circle itself and
    everything from the outer radius on resolve to no label.  Without a
    mounted canvas there is no label either.
   */
  function SegmentFromPoint(cats: seq<Category>, canvas: Option<Canvas>, distance: real, fraction: real): (r: Option<string>)
    requires WellFormed(cats) && 0.0 <= fraction < 1.0
    ensures r.Some? ==> canvas.Some?
    ensures r.Some? ==>
      var category := cats[SegmentIndex(fraction, |cats|)];
      r.value == category.name || r.value in category.subFlavors
  {
    if canvas.None? then None
    else
      var g := RingsOf(canvas.value);
      if distance < g.hubRadius then None
      else
        var category := cats[SegmentIndex(fraction, |cats|)];
        if distance > g.innerRadius && distance < g.radius then
          Some(category.name)
        else if distance > g.hubRadius && distance < g.innerRadius then
          Some(category.subFlavors[SubIndex(fraction, |cats|, |category.subFlavors|)])
        else
          None
  }

  /** A pointer strictly inside the outer ring hits the name of the category whose sector holds the angle. */
  lemma OuterRingHit(cats: seq<Category>, c: Canvas, distance: real, fraction: real)
    requires WellFormed(cats) && 0.0 <= fraction < 1.0
    requires RingsOf(c).innerRadius < distance < RingsOf(c).radius
    ensures SegmentFromPoint(cats, Some(c), distance, fraction) == Some(cats[SegmentIndex(fraction, |cats|)].name)
  {
  }

  /**
    A pointer strictly inside the inner ring hits one sub-flavor of the same
    sector's category: the one whose part of the sector holds the angle.
   */
  lemma InnerRingHit(cats: seq<Category>, c: Canvas, distance: real, fraction: real)
    requires WellFormed(cats) && 0.0 <= fraction < 1.0
    requires RingsOf(c).hubRadius < distance < RingsOf(c).innerRadius
    ensures var category := cats[SegmentIndex(fraction, |cats|)];
      SegmentFromPoint(cats, Some(c), distance, fraction)
        == Some(category.subFlavors[SubIndex(fraction, |cats|, |category.subFlavors|)])
  {
  }

  /**
    The hit test finds a label exactly when the distance lies strictly
    inside one of the two rings; in particular the hub, both ring circles
    and everything from the outer radius on are dead.
   */
  lemma HitIffInsideRing(cats: seq<Category>, c: Canvas, distance: real, fraction: real)
    requires WellFormed(cats) && 0.0 <= fraction < 1.0
    ensures var g := RingsOf(c);
      SegmentFromPoint(cats, Some(c), distance, fraction).Some? <==>
        (g.innerRadius < distance < g.radius) || (g.hubRadius < distance < g.innerRadius)
    ensures var g := RingsOf(c);
      distance <= g.hubRadius || distance == g.innerRadius || distance >= g.radius ==>
        SegmentFromPoint(cats, Some(c), distance, fraction) == None
  {
    var g := RingsOf(c);
    if distance < g.hubRadius {
      // the two rings lie beyond the hub, whichever sign the radii have
      assert !(g.innerRadius < distance < g.radius);
    }
  }

  // ---------------------------------------------------------- interaction

  /**
    What a click asks the caller to store: nothing when the pointer hits no
    label (a null or empty segment is falsy), otherwise the selection with
    that label toggled.
   */
  function ClickChange(selected: seq<string>, segment: Option<string>): (r: Option<seq<string>>)
    ensures r.None? <==> segment.None? || segment.value == ""
    ensures r.Some? ==> r.value == Toggle(selected, segment.value)
  {
    if segment.Some? && segment.value != "" then Some(Toggle(selected, segment.value)) else None
  }

  /** The component's own state: the hovered label, over a fixed configuration and canvas. */
  class Wheel {
    const categories: seq<Category>
    const canvas: Option<Canvas>
    var hoveredSegment: Option<string>

    predicate Valid()
    {
      WellFormed(categories)
    }

    constructor (categories: seq<Category>, canvas: Option<Canvas>)
      requires WellFormed(categories)
      ensures Valid()
      ensures this.categories == categories && this.canvas == canvas
      ensures hoveredSegment == None
    {
      this.categories := categories;
      this.canvas := canvas;
      hoveredSegment := None;
    }

    /** A mouse move sets the hovered label to the hit test's result, no label included. */
    method MouseMove(distance: real, fraction: real)
      requires Valid() && 0.0 <= fraction < 1.0
      modifies this
      ensures hoveredSegment == SegmentFromPoint(categories, canvas, distance, fraction)
    {
      hoveredSegment := SegmentFromPoint(categories, canvas, distance, fraction);
    }

    /** Leaving the canvas clears the hovered label. */
    method MouseLeave()
      modifies this
      ensures hoveredSegment == None
    {
      hoveredSegment := None;
    }

    /**
      A click hit-tests the pointer and, when it hits a label, reports the
      toggled selection to the caller; the component's own state is unchanged.
     */
    method Click(selected: seq<string>, distance: real, fraction: real) returns (change: Option<seq<string>>)
      requires Valid() && 0.0 <= fraction < 1.0
      ensures var segment := SegmentFromPoint(categories, canvas, distance, fraction);
        change.None? <==> segment.None? || segment.value == ""
      ensures var segment := SegmentFromPoint(categories, canvas, distance, fraction);
        change.Some? ==> change.value == Toggle(selected, segment.value)
    {
      change := ClickChange(selected, SegmentFromPoint(categories, canvas, distance, fraction));
    }
  }

  // -------------------------------------------------------------- render

  /** Math.PI. */
  const PI: real := 3.141592653589793

  /** The drawing writes a sub-flavor's text only when its angular span exceeds 0.3 radians. */
  predicate SubLabelDrawn(n: nat, m: nat)
    requires n > 0 && m > 0
  {
    (2.0 * PI / n as real) / m as real > 0.3
  }

  /** Sub-flavor text is drawn exactly when the wheel has at most 20 inner-ring parts in all. */
  lemma SubLabelDrawnIff(n: nat, m: nat)
    requires n > 0 && m > 0
    ensures SubLabelDrawn(n, m) <==> n * m <= 20
  {
    var p := (n * m) as real;
    assert (2.0 * PI / n as real) / m as real == 2.0 * PI / p;
    assert 2.0 * PI / p > 0.3 <==> 2.0 * PI > 0.3 * p;
  }

  // ------------------------------------------------- the fixed configuration

  /** The wheel's configuration is usable by the hit test: 8 categories of 5 sub-flavors each. */
  lemma FlavorCategoriesShape()
    ensures WellFormed(FlavorCategories)
    ensures |FlavorCategories| == 8
    ensures forall i :: 0 <= i < 8 ==> |FlavorCategories[i].subFlavors| == 5
  {
  }

  /**
    Where a label of the fixed wheel sits, read off its first one or two
    characters: the category index and the position inside the category
    (0 for the category name, k + 1 for sub-flavor k).  Other strings map to
    (-1, -1).
   */
  function LocateLabel(s: string): (int, int)
  {
    if |s| < 2 then (-1, -1)
    else match s[0]
      case '花' => (if s[1] == '香' then (0, 0) else (2, 3))
      case '茉' => (0, 1)
      case '桂' => (0, 2)
      case '玫' => (0, 3)
      case '蘭' => (0, 4)
      case '栀' => (0, 5)

      case '果' => (1, 0)
      case '柑' => (1, 1)
      case '蘋' => (1, 2)
      case '桃' => (1, 3)
      case '梨' => (1, 4)
      case '熱' => (1, 5)

      case '蜜' => (2, 0)
      case '龍' => (2, 1)
      case '荔' => (2, 2)
      case '蜂' => (2, 4)
      case '甘' => (2, 5)

      case '木' => (if s[1] == '香' then (3, 0) else (3, 5))
      case '檀' => (3, 1)
      case '樟' => (3, 2)
      case '松' => (3, 3)
      case '竹' => (3, 4)

      case '焙' => (4, 0)
      case '炭' => (4, 1)
      case '烘' => (4, 2)
      case '焦' => (4, 3)
      case '堅' => (4, 4)
      case '烟' => (4, 5)

      case '陳' => (if s[1] == '香' then (5, 0) else (5, 2))
      case '倉' => (5, 1)
      case '老' => (5, 3)
      case '濕' => (5, 4)
      case '乾' => (5, 5)

      case '草' => (6, 0)
      case '青' => (6, 1)
      case '薄' => (6, 2)
      case '藥' => (6, 3)
      case '清' => (6, 4)
      case '鮮' => (6, 5)

      case '礦' => (7, 0)
      case '岩' => (7, 1)
      case '泥' => (7, 2)
      case '海' => (7, 3)
      case '鹽' => (7, 4)
      case '金' => (7, 5)

      case _ => (-1, -1)
  }

  /** `LocateLabel` inverts `LabelAt` on the first two categories. */
  lemma LocateFloralFruity()
    ensures forall i, k :: 0 <= i < 2 && 0 <= k < 6 ==> LocateLabel(LabelAt(FlavorCategories, i, k)) == (i, k)
  {
    forall i, k | 0 <= i < 2 && 0 <= k < 6 ensures LocateLabel(LabelAt(FlavorCategories, i, k)) == (i, k) {
      assert i == 0 || i == 1;
      assert k == 0 || k == 1 || k == 2 || k == 3 || k == 4 || k == 5;
    }
  }

  /** `LocateLabel` inverts `LabelAt` on categories 2 and 3. */
  lemma LocateHoneyWoody()
    ensures forall i, k :: 2 <= i < 4 && 0 <= k < 6 ==> LocateLabel(LabelAt(FlavorCategories, i, k)) == (i, k)
  {
    forall i, k | 2 <= i < 4 && 0 <= k < 6 ensures LocateLabel(LabelAt(FlavorCategories, i, k)) == (i, k) {
      assert i == 2 || i == 3;
      assert k == 0 || k == 1 || k == 2 || k == 3 || k == 4 || k == 5;
    }
  }

  /** `LocateLabel` inverts `LabelAt` on categories 4 and 5. */
  lemma LocateRoastedAged()
    ensures forall i, k :: 4 <= i < 6 && 0 <= k < 6 ==> LocateLabel(LabelAt(FlavorCategories, i, k)) == (i, k)
  {
    forall i, k | 4 <= i < 6 && 0 <= k < 6 ensures LocateLabel(LabelAt(FlavorCategories, i, k)) == (i, k) {
      assert i == 4 || i == 5;
      assert k == 0 || k == 1 || k == 2 || k == 3 || k == 4 || k == 5;
    }
  }

  /** `LocateLabel` inverts `LabelAt` on the last two categories. */
  lemma LocateHerbalMineral()
    ensures forall i, k :: 6 <= i < 8 && 0 <= k < 6 ==> LocateLabel(LabelAt(FlavorCategories, i, k)) == (i, k)
  {
    forall i, k | 6 <= i < 8 && 0 <= k < 6 ensures LocateLabel(LabelAt(FlavorCategories, i, k)) == (i, k) {
      assert i == 6 || i == 7;
      assert k == 0 || k == 1 || k == 2 || k == 3 || k == 4 || k == 5;
    }
  }

  /**
    The 8 category names and 40 sub-flavors are pairwise distinct: two
    positions of the fixed wheel with the same label are the same position.
   */
  lemma LabelIdentifiesSegment(i: int, k: int, j: int, l: int)
    requires 0 <= i < 8 && 0 <= k < 6 && 0 <= j < 8 && 0 <= l < 6
    requires LabelAt(FlavorCategories, i, k) == LabelAt(FlavorCategories, j, l)
    ensures i == j && k == l
  {
    LocateFloralFruity();
    LocateHoneyWoody();
    LocateRoastedAged();
    LocateHerbalMineral();
  }

  /**
    On the fixed wheel a label hit by two pointers places both in the same
    sector and the same ring, so a selected string names one segment.
   */
  lemma SameHitSameSegment(c: Canvas, d1: real, f1: real, d2: real, f2: real)
    requires 0.0 <= f1 < 1.0 && 0.0 <= f2 < 1.0
    requires SegmentFromPoint(FlavorCategories, Some(c), d1, f1).Some?
    requires SegmentFromPoint(FlavorCategories, Some(c), d1, f1) == SegmentFromPoint(FlavorCategories, Some(c), d2, f2)
    ensures SegmentIndex(f1, 8) == SegmentIndex(f2, 8)
    ensures d1 > RingsOf(c).innerRadius <==> d2 > RingsOf(c).innerRadius
  {
    var i1, i2 := SegmentIndex(f1, 8), SegmentIndex(f2, 8);
    var k1 := HitPosition(c, d1, f1);
    var k2 := HitPosition(c, d2, f2);
    LabelIdentifiesSegment(i1, k1, i2, k2);
  }

  /** The position inside its category of the label a pointer on the fixed wheel hits. */
  lemma HitPosition(c: Canvas, d: real, f: real) returns (k: int)
    requires 0.0 <= f < 1.0
    requires SegmentFromPoint(FlavorCategories, Some(c), d, f).Some?
    ensures 0 <= k < 6
    ensures SegmentFromPoint(FlavorCategories, Some(c), d, f) == Some(LabelAt(FlavorCategories, SegmentIndex(f, 8), k))
    ensures k == 0 <==> d > RingsOf(c).innerRadius
  {
    var i := SegmentIndex(f, 8);
    HitIffInsideRing(FlavorCategories, c, d, f);
    if d > RingsOf(c).innerRadius {
      k := 0;
    } else {
      k := SubIndex(f, 8, |FlavorCategories[i].subFlavors|) + 1;
    }
  }

  /** With 8 sectors of 5 parts each, no sub-flavor text is drawn. */
  lemma NoSubLabelText()
    ensures !SubLabelDrawn(|FlavorCategories|, 5)
  {
    SubLabelDrawnIff(8, 5);
  }

  /** Pointers on the mounted wheel at angle 0: the outer ring, the inner ring and the hub. */
  lemma WheelExamples()
    ensures SegmentFromPoint(FlavorCategories, Some(WheelCanvas), 60.0, 0.0) == Some("花香")
    ensures SegmentFromPoint(FlavorCategories, Some(WheelCanvas), 40.0, 0.0) == Some("茉莉")
    ensures forall f :: 0.0 <= f < 1.0 ==> SegmentFromPoint(FlavorCategories, Some(WheelCanvas), 10.0, f) == None
  {
    WheelCanvasRings();
  }
}
