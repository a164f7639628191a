// Rounded-corner and bubble-tail masks for message photos: the cache keys
// with their hand-written equality and hash, the two lazily filled mask
// caches, and the dispatch that decides which mask is stamped where.

module CornerMasks {

  // ---------------------------------------------------------------------
  // Cache keys
  // ---------------------------------------------------------------------

  /** Key of a cached corner mask: which corner, and its whole-point radius.
    * Keys are only built from `Int(radius)` of a radius above the machine
    * epsilon, so the radius is never negative. */
  datatype Corner =
    | TopLeft(radius: nat)
    | TopRight(radius: nat)
    | BottomLeft(radius: nat)
    | BottomRight(radius: nat)

  /** Key of a cached bubble-tail mask. */
  datatype Tail =
    | TailBottomLeft(radius: nat)
    | TailBottomRight(radius: nat)

  /** The hand-written `==` on corner keys: same case, same radius. */
  function CornerEquals(lhs: Corner, rhs: Corner): (r: bool)
    ensures r <==> lhs == rhs
  {
    match lhs
    case TopLeft(a) => rhs.TopLeft? && rhs.radius == a
    case TopRight(a) => rhs.TopRight? && rhs.radius == a
    case BottomLeft(a) => rhs.BottomLeft? && rhs.radius == a
    case BottomRight(a) => rhs.BottomRight? && rhs.radius == a
  }

  /** The hand-written `==` on tail keys: same case, same radius. */
  function TailEquals(lhs: Tail, rhs: Tail): (r: bool)
    ensures r <==> lhs == rhs
  {
    match lhs
    case TailBottomLeft(a) => rhs.TailBottomLeft? && rhs.radius == a
    case TailBottomRight(a) => rhs.TailBottomRight? && rhs.radius == a
  }

  /** Bitwise or of two non-negative integers, bit by bit from the bottom. */
  function BitOr(a: nat, b: nat): nat
    decreases a + b
  {
    if a == 0 then b
    else if b == 0 then a
    else 2 * BitOr(a / 2, b / 2) + (if a % 2 == 1 || b % 2 == 1 then 1 else 0)
  }

  function Pow2(k: nat): (p: nat)
    ensures p >= 1
  {
    if k == 0 then 1 else 2 * Pow2(k - 1)
  }

  /** The bit position at which the case tag is stored in a hash. */
  const TagShift: nat := 24

  /** `1 << 24`. */
  const TagUnit: nat := 16777216

  lemma TagUnitIsPow2()
    ensures Pow2(TagShift) == TagUnit
  {
    assert Pow2(1) == 2 && Pow2(2) == 4 && Pow2(3) == 8 && Pow2(4) == 16;
    assert Pow2(5) == 32 && Pow2(6) == 64 && Pow2(7) == 128 && Pow2(8) == 256;
    assert Pow2(9) == 512 && Pow2(10) == 1024 && Pow2(11) == 2048 && Pow2(12) == 4096;
    assert Pow2(13) == 8192 && Pow2(14) == 16384 && Pow2(15) == 32768 && Pow2(16) == 65536;
    assert Pow2(17) == 131072 && Pow2(18) == 262144 && Pow2(19) == 524288;
    assert Pow2(20) == 1048576 && Pow2(21) == 2097152 && Pow2(22) == 4194304;
    assert Pow2(23) == 8388608;
  }

  function CornerTag(c: Corner): nat
  {
    match c
    case TopLeft(_) => 1
    case TopRight(_) => 2
    case BottomLeft(_) => 3
    case BottomRight(_) => 4
  }

  function TailTag(t: Tail): nat
  {
    match t
    case TailBottomLeft(_) => 1
    case TailBottomRight(_) => 2
  }

  /** `radius | (tag << 24)`. */
  function CornerHash(c: Corner): nat
  {
    BitOr(c.radius, CornerTag(c) * TagUnit)
  }

  function TailHash(t: Tail): nat
  {
    BitOr(t.radius, TailTag(t) * TagUnit)
  }

  /** Or-ing a number below 2^k with a multiple of 2^k is addition. */
  lemma {:induction false} BitOrDisjoint(a: nat, c: nat, k: nat)
    requires a < Pow2(k)
    ensures BitOr(a, c * Pow2(k)) == a + c * Pow2(k)
    decreases k
  {
    if k == 0 {
      assert a == 0;
    } else if a == 0 || c == 0 {
    } else {
      var b := c * Pow2(k);
      assert b == 2 * (c * Pow2(k - 1));
      assert b / 2 == c * Pow2(k - 1) && b % 2 == 0;
      BitOrDisjoint(a / 2, c, k - 1);
      assert BitOr(a, b) == 2 * BitOr(a / 2, b / 2) + (if a % 2 == 1 then 1 else 0);
    }
  }

  lemma {:induction false} BitOrIdempotent(a: nat)
    ensures BitOr(a, a) == a
    decreases a
  {
    if a != 0 {
      BitOrIdempotent(a / 2);
    }
  }

  /** A hash is the radius plus the tag in the bits from 24 up. */
  lemma CornerHashValue(c: Corner)
    requires c.radius < TagUnit
    ensures CornerHash(c) == c.radius + CornerTag(c) * TagUnit
  {
    TagUnitIsPow2();
    BitOrDisjoint(c.radius, CornerTag(c), TagShift);
  }

  lemma TailHashValue(t: Tail)
    requires t.radius < TagUnit
    ensures TailHash(t) == t.radius + TailTag(t) * TagUnit
  {
    TagUnitIsPow2();
    BitOrDisjoint(t.radius, TailTag(t), TagShift);
  }

  lemma {:induction false} MulMonotone(a: nat, b: nat, p: nat)
    requires a <= b
    ensures a * p <= b * p
    decreases b - a
  {
    if a < b {
      MulMonotone(a, b - 1, p);
      assert b * p == (b - 1) * p + p;
    }
  }

  /** Two numbers r + t * P with r below P are equal only with equal r and t. */
  lemma DigitsUnique(r1: nat, t1: nat, r2: nat, t2: nat, p: nat)
    requires r1 < p && r2 < p
    requires r1 + t1 * p == r2 + t2 * p
    ensures r1 == r2 && t1 == t2
  {
    if t1 < t2 {
      MulMonotone(t1 + 1, t2, p);
      assert false;
    } else if t2 < t1 {
      MulMonotone(t2 + 1, t1, p);
      assert false;
    }
  }

  /** Radii below 2^24: different corner keys hash differently. */
  lemma CornerHashInjective(a: Corner, b: Corner)
    requires a.radius < TagUnit && b.radius < TagUnit
    requires CornerHash(a) == CornerHash(b)
    ensures a == b
  {
    CornerHashValue(a);
    CornerHashValue(b);
    DigitsUnique(a.radius, CornerTag(a), b.radius, CornerTag(b), TagUnit);
  }

  /** Radii below 2^24: different tail keys hash differently. */
  lemma TailHashInjective(a: Tail, b: Tail)
    requires a.radius < TagUnit && b.radius < TagUnit
    requires TailHash(a) == TailHash(b)
    ensures a == b
  {
    TailHashValue(a);
    TailHashValue(b);
    DigitsUnique(a.radius, TailTag(a), b.radius, TailTag(b), TagUnit);
  }

  /** The 2^24 bound is tight: from 2^24 on, the radius reaches the tag bits
    * and distinct keys share a hash. Lookups stay correct because the cache
    * compares keys with `==` after hashing. */
  lemma CornerHashCollision(r: nat)
    requires r == TagUnit
    ensures TopLeft(r) != TopLeft(0)
    ensures CornerHash(TopLeft(r)) == CornerHash(TopLeft(0))
  {
    BitOrIdempotent(r);
  }

  // ---------------------------------------------------------------------
  // Masks
  // ---------------------------------------------------------------------

  datatype Rect = Rect(x: real, y: real, width: real, height: real)
  {
    function MaxX(): real { x + width }
    function MaxY(): real { y + height }
  }

  datatype Point = Point(x: real, y: real)

  /** The fixed polygon a tail mask carries besides its circle; the
    * bottom-right tail draws it mirrored about the mask's vertical axis. */
  datatype TailPath = NoTailPath | TailPolygon | MirroredTailPolygon

  /** A drawn mask, seen through its size and the shapes filled into it. */
  datatype Mask = Mask(width: real, height: real, ellipse: Rect, path: TailPath)

  /** What a cache miss draws for a corner key: a radius-by-radius mask
    * holding the quarter of a circle of that radius. */
  function CornerMask(c: Corner): (m: Mask)
  {
    var r := c.radius as real;
    var d := (c.radius * 2) as real;
    match c
    case TopLeft(_) => Mask(r, r, Rect(0.0, 0.0, d, d), NoTailPath)
    case TopRight(_) => Mask(r, r, Rect(-r, 0.0, d, d), NoTailPath)
    case BottomLeft(_) => Mask(r, r, Rect(0.0, -r, d, d), NoTailPath)
    case BottomRight(_) => Mask(r, r, Rect(-r, -r, d, d), NoTailPath)
  }

  /** What a cache miss draws for a tail key: a mask 3 points wider than
    * its radius, with the tail polygon and the circle. For the bottom-right
    * tail the mirroring transform is set before either shape is filled, so
    * the circle is mirrored along with the polygon. */
  function TailMask(t: Tail): (m: Mask)
  {
    var r := t.radius as real;
    var d := (t.radius * 2) as real;
    match t
    case TailBottomLeft(_) => Mask(r + 3.0, r, Rect(3.0, -r, d, d), TailPolygon)
    case TailBottomRight(_) => Mask(r + 3.0, r, Rect(-r, -r, d, d), MirroredTailPolygon)
  }

  /** The circle of a mask has diameter twice the given radius, its centre
    * is one of the four vertices of the mask, and its bounding square
    * covers the whole mask. */
  predicate CircleAtVertex(m: Mask, radius: real)
  {
    var cx := m.ellipse.x + m.ellipse.width / 2.0;
    var cy := m.ellipse.y + m.ellipse.height / 2.0;
    && m.ellipse.width == 2.0 * radius
    && m.ellipse.height == 2.0 * radius
    && (cx == 0.0 || cx == m.width)
    && (cy == 0.0 || cy == m.height)
    && m.ellipse.x <= 0.0 && m.width <= m.ellipse.MaxX()
    && m.ellipse.y <= 0.0 && m.height <= m.ellipse.MaxY()
  }

  lemma CornerMaskShape(c: Corner)
    ensures CornerMask(c).width == c.radius as real
    ensures CornerMask(c).height == c.radius as real
    ensures CornerMask(c).path == NoTailPath
    ensures CircleAtVertex(CornerMask(c), c.radius as real)
  {
  }

  /** A tail mask is 3 points wider than its radius; its circle has that
    * radius and is centred on the mask's top edge, on the right edge for the
    * bottom-left tail and on the left edge for the mirrored bottom-right
    * tail. */
  lemma TailMaskShape(t: Tail)
    ensures var m := TailMask(t);
      && m.width == t.radius as real + 3.0
      && m.height == t.radius as real
      && m.ellipse.width == 2.0 * (t.radius as real) && m.ellipse.height == 2.0 * (t.radius as real)
      && m.ellipse.y + m.ellipse.height / 2.0 == 0.0
      && (t.TailBottomLeft? ==> m.path == TailPolygon && m.ellipse.x + m.ellipse.width / 2.0 == m.width)
      && (t.TailBottomRight? ==> m.path == MirroredTailPolygon && m.ellipse.x + m.ellipse.width / 2.0 == 0.0)
  {
  }

  /** The two tail masks of one radius are mirror images of each other about
    * the mask's vertical axis. */
  lemma TailMasksMirrored(r: nat)
    ensures var left := TailMask(TailBottomLeft(r));
      var right := TailMask(TailBottomRight(r));
      && right.width == left.width && right.height == left.height
      && right.ellipse == left.ellipse.(x := left.width - left.ellipse.MaxX())
  {
  }

  /** Different corner keys of a positive radius never share a mask, so a
    * cache keyed by them cannot hand out the mask of another corner. (With
    * radius 0, reached by radii between the epsilon and 1, every corner
    * draws the same empty mask.) */
  lemma CornerMaskInjective(a: Corner, b: Corner)
    requires a.radius > 0
    requires CornerMask(a) == CornerMask(b)
    ensures a == b
  {
    assert (a.radius as real) == CornerMask(a).width;
  }

  // ---------------------------------------------------------------------
  // The mask caches
  // ---------------------------------------------------------------------

  /** The two process-wide dictionaries of drawn masks. */
  class MaskCache {
    var corners: map<Corner, Mask>
    var tails: map<Tail, Mask>

    /** Every cached mask is the one its key draws. */
    ghost predicate Valid()
      reads this
    {
      && (forall c :: c in corners ==> corners[c] == CornerMask(c))
      && (forall t :: t in tails ==> tails[t] == TailMask(t))
    }

    constructor()
      ensures Valid()
      ensures corners == map[] && tails == map[]
    {
      corners := map[];
      tails := map[];
    }

    /** Returns the cached mask on a hit; on a miss draws it and stores it. */
    method CornerContext(corner: Corner) returns (mask: Mask)
      requires Valid()
      modifies this
      ensures Valid()
      ensures mask == CornerMask(corner)
      ensures corners == old(corners)[corner := mask]
      ensures corner in old(corners) ==> corners == old(corners)
      ensures tails == old(tails)
    {
      if corner in corners {
        mask := corners[corner];
        assert corners[corner := mask] == corners;
      } else {
        mask := CornerMask(corner);
        corners := corners[corner := mask];
      }
    }

    method TailContext(tail: Tail) returns (mask: Mask)
      requires Valid()
      modifies this
      ensures Valid()
      ensures mask == TailMask(tail)
      ensures tails == old(tails)[tail := mask]
      ensures tail in old(tails) ==> tails == old(tails)
      ensures corners == old(corners)
    {
      if tail in tails {
        mask := tails[tail];
        assert tails[tail := mask] == tails;
      } else {
        mask := TailMask(tail);
        tails := tails[tail := mask];
      }
    }
  }

  // ---------------------------------------------------------------------
  // Stamping the corners of an image
  // ---------------------------------------------------------------------

  /** How one corner of an image is to be finished. */
  datatype ImageCorner =
    | CornerRadius(radius: real)
    | TailRadius(radius: real, enabled: bool)

  datatype ImageCorners = ImageCorners(
    topLeft: ImageCorner,
    topRight: ImageCorner,
    bottomLeft: ImageCorner,
    bottomRight: ImageCorner)

  /** `CGFloat.ulpOfOne` for a 64-bit `CGFloat`: 2^-52. */
  const UlpOfOne: real := 1.0 / 4503599627370496.0

  /** `Int(radius)` for the positive radii that reach it. */
  function KeyRadius(radius: real): nat
    requires radius > UlpOfOne
  {
    radius.Floor
  }

  datatype Position = TopLeftCorner | TopRightCorner | BottomLeftCorner | BottomRightCorner

  /** One step of finishing an image. A tail step also clears a 3-point
    * column beside the image, refills its bottom 6 points with the colour
    * sampled at `sample`, and then stamps the tail mask. */
  datatype Stamp =
    | StampCorner(at: Position, corner: Corner, x: real, y: real)
    | StampTail(at: Position, tail: Tail, x: real, y: real,
                sample: Point, cleared: Rect, filled: Rect)

  /** The plain corner offsets for a radius `r` inside `rect`. */
  function CornerOffset(p: Position, rect: Rect, r: real): Point
  {
    match p
    case TopLeftCorner => Point(rect.x, rect.y)
    case TopRightCorner => Point(rect.MaxX() - r, rect.y)
    case BottomLeftCorner => Point(rect.x, rect.MaxY() - r)
    case BottomRightCorner => Point(rect.MaxX() - r, rect.MaxY() - r)
  }

  function CornerAt(corners: ImageCorners, p: Position): ImageCorner
  {
    match p
    case TopLeftCorner => corners.topLeft
    case TopRightCorner => corners.topRight
    case BottomLeftCorner => corners.bottomLeft
    case BottomRightCorner => corners.bottomRight
  }

  /** The step (if any) `addCorners` takes for one position. The top
    * corners ignore tails; a bottom corner stamps a tail only when the
    * tail is enabled and otherwise falls back to the plain corner. */
  function PositionSteps(corners: ImageCorners, rect: Rect, p: Position): seq<Stamp>
  {
    var c := CornerAt(corners, p);
    if c.radius <= UlpOfOne then []
    else match p
      case TopLeftCorner =>
        if c.CornerRadius?
        then [StampCorner(p, TopLeft(KeyRadius(c.radius)), rect.x, rect.y)]
        else []
      case TopRightCorner =>
        if c.CornerRadius?
        then [StampCorner(p, TopRight(KeyRadius(c.radius)), rect.MaxX() - c.radius, rect.y)]
        else []
      case BottomLeftCorner =>
        if c.TailRadius? && c.enabled
        then [StampTail(p, TailBottomLeft(KeyRadius(c.radius)),
                        rect.x - 3.0, rect.MaxY() - c.radius,
                        Point(rect.x, rect.MaxY() - 1.0),
                        Rect(rect.x - 3.0, 0.0, 3.0, rect.MaxY() - 6.0),
                        Rect(0.0, rect.MaxY() - 6.0, 3.0, 6.0))]
        else [StampCorner(p, BottomLeft(KeyRadius(c.radius)), rect.x, rect.MaxY() - c.radius)]
      case BottomRightCorner =>
        if c.TailRadius? && c.enabled
        then [StampTail(p, TailBottomRight(KeyRadius(c.radius)),
                        rect.MaxX() - c.radius, rect.MaxY() - c.radius,
                        Point(rect.MaxX() - 1.0, rect.MaxY() - 1.0),
                        Rect(rect.MaxX(), 0.0, 3.0, rect.MaxY() - 6.0),
                        Rect(rect.MaxX(), rect.MaxY() - 6.0, 3.0, 6.0))]
        else [StampCorner(p, BottomRight(KeyRadius(c.radius)), rect.MaxX() - c.radius, rect.MaxY() - c.radius)]
  }

  /** The steps `addCorners` takes, in order: top-left, top-right,
    * bottom-left, bottom-right. */
  function CornerPlan(corners: ImageCorners, rect: Rect): seq<Stamp>
  {
    PositionSteps(corners, rect, TopLeftCorner)
    + PositionSteps(corners, rect, TopRightCorner)
    + PositionSteps(corners, rect, BottomLeftCorner)
    + PositionSteps(corners, rect, BottomRightCorner)
  }

  predicate IsTop(p: Position)
  {
    p == TopLeftCorner || p == TopRightCorner
  }

  /** Whether position `p` is to be finished: its radius must exceed the
    * machine epsilon, and a top corner must be a plain corner. */
  predicate Finished(corners: ImageCorners, p: Position)
  {
    var c := CornerAt(corners, p);
    c.radius > UlpOfOne && (IsTop(p) ==> c.CornerRadius?)
  }

  /** A key's case agrees with the position it is stamped at. */
  predicate KeyMatches(s: Stamp)
  {
    match s
    case StampCorner(p, c, _, _) =>
      (match p
       case TopLeftCorner => c.TopLeft?
       case TopRightCorner => c.TopRight?
       case BottomLeftCorner => c.BottomLeft?
       case BottomRightCorner => c.BottomRight?)
    case StampTail(p, t, _, _, _, _, _) =>
      (p == BottomLeftCorner && t.TailBottomLeft?) || (p == BottomRightCorner && t.TailBottomRight?)
  }

  /** The radius carried by a step's key. */
  function KeyOf(s: Stamp): nat
  {
    if s.StampCorner? then s.corner.radius else s.tail.radius
  }

  /** A position is finished by exactly one step when its radius exceeds the
    * epsilon (and, at the top, it is a plain corner) and by none otherwise;
    * the step's key names that position and carries the truncated radius;
    * a tail is stamped exactly for an enabled bottom tail. */
  lemma PositionStepsShape(corners: ImageCorners, rect: Rect, p: Position)
    ensures var steps := PositionSteps(corners, rect, p);
      && |steps| <= 1
      && (|steps| == 1 <==> Finished(corners, p))
      && (|steps| == 1 ==>
            var c := CornerAt(corners, p);
            && steps[0].at == p
            && KeyMatches(steps[0])
            && KeyOf(steps[0]) == c.radius.Floor
            && (steps[0].StampTail? <==> !IsTop(p) && c.TailRadius? && c.enabled))
  {
  }

  /** Plain corner masks sit at the corner offsets, computed with the
    * radius as given (not the truncated key radius); the bottom-left tail
    * sits 3 points left of the image and the bottom-right tail at the plain
    * bottom-right offset. */
  lemma PositionStepsOffset(corners: ImageCorners, rect: Rect, p: Position)
    requires Finished(corners, p)
    ensures var s := PositionSteps(corners, rect, p)[0];
      var r := CornerAt(corners, p).radius;
      && (s.StampCorner? ==> Point(s.x, s.y) == CornerOffset(p, rect, r))
      && (s.StampTail? && p == BottomLeftCorner ==> Point(s.x, s.y) == Point(rect.x - 3.0, rect.MaxY() - r))
      && (s.StampTail? && p == BottomRightCorner ==> Point(s.x, s.y) == CornerOffset(p, rect, r))
  {
  }

  /** An enabled tail first clears the 3-point column beside the image down
    * to 6 points above its bottom, then fills a 3-by-6 block at the bottom
    * with the colour sampled just inside the bottom corner. On the right the
    * block sits beside the image; on the left it sits at x = 0 whatever the
    * image's x, so it lines up with the cleared column only when the image
    * starts 3 points in. */
  lemma TailStepPreparation(corners: ImageCorners, rect: Rect, p: Position)
    requires Finished(corners, p) && !IsTop(p)
    requires CornerAt(corners, p).TailRadius? && CornerAt(corners, p).enabled
    ensures var s := PositionSteps(corners, rect, p)[0];
      && s.StampTail?
      && s.cleared.width == 3.0 && s.filled.width == 3.0
      && s.cleared.y == 0.0 && s.cleared.MaxY() == rect.MaxY() - 6.0
      && s.filled.y == rect.MaxY() - 6.0 && s.filled.MaxY() == rect.MaxY()
      && s.sample.y == rect.MaxY() - 1.0
      && (p == BottomLeftCorner ==> s.cleared.MaxX() == rect.x && s.filled.x == 0.0 && s.sample.x == rect.x)
      && (p == BottomRightCorner ==> s.cleared.x == rect.MaxX() && s.filled.x == rect.MaxX()
                                      && s.sample.x == rect.MaxX() - 1.0)
  {
  }

  /** A disabled tail is finished exactly like a plain corner of the same
    * radius. */
  lemma DisabledTailIsPlainCorner(corners: ImageCorners, rect: Rect, r: real)
    ensures CornerPlan(corners.(bottomLeft := TailRadius(r, false)), rect)
         == CornerPlan(corners.(bottomLeft := CornerRadius(r)), rect)
    ensures CornerPlan(corners.(bottomRight := TailRadius(r, false)), rect)
         == CornerPlan(corners.(bottomRight := CornerRadius(r)), rect)
  {
    DisabledTailSteps(corners.(bottomLeft := TailRadius(r, false)), corners.(bottomLeft := CornerRadius(r)), rect);
    DisabledTailSteps(corners.(bottomRight := TailRadius(r, false)), corners.(bottomRight := CornerRadius(r)), rect);
  }

  /** Two corner sets that differ only by a disabled tail against a plain
    * corner of the same radius take the same steps at every position. */
  lemma DisabledTailSteps(a: ImageCorners, b: ImageCorners, rect: Rect)
    requires forall p :: (|| CornerAt(a, p) == CornerAt(b, p)
                          || (&& CornerAt(a, p).TailRadius? && !CornerAt(a, p).enabled && !IsTop(p)
                              && CornerAt(b, p) == CornerRadius(CornerAt(a, p).radius)))
    ensures CornerPlan(a, rect) == CornerPlan(b, rect)
  {
    assert PositionSteps(a, rect, TopLeftCorner) == PositionSteps(b, rect, TopLeftCorner);
    assert PositionSteps(a, rect, TopRightCorner) == PositionSteps(b, rect, TopRightCorner);
    assert PositionSteps(a, rect, BottomLeftCorner) == PositionSteps(b, rect, BottomLeftCorner);
    assert PositionSteps(a, rect, BottomRightCorner) == PositionSteps(b, rect, BottomRightCorner);
  }

  /** The top-right mask ends exactly at the right edge of the drawing
    * rectangle only for a whole-point radius: the key truncates the radius
    * while the offset does not, so with a fractional radius the mask falls
    * short of the edge by the fractional part. */
  lemma TopRightFlushIffWhole(corners: ImageCorners, rect: Rect)
    requires corners.topRight.CornerRadius? && corners.topRight.radius > UlpOfOne
    ensures var s := PositionSteps(corners, rect, TopRightCorner)[0];
      && s.StampCorner?
      && (s.x + CornerMask(s.corner).width == rect.MaxX()
          <==> corners.topRight.radius == corners.topRight.radius.Floor as real)
  {
  }

  // ---------------------------------------------------------------------
  // The drawing context
  // ---------------------------------------------------------------------

  datatype DrawOp =
    | Blit(mask: Mask, x: real, y: real)
    | ClearRect(rect: Rect)
    | FillRect(rect: Rect, colorFrom: Point)

  /** The drawing operations one planned step performs, with the masks the
    * caches hand out. */
  function StampOps(s: Stamp): seq<DrawOp>
  {
    match s
    case StampCorner(_, c, x, y) => [Blit(CornerMask(c), x, y)]
    case StampTail(_, t, x, y, sample, cleared, filled) =>
      [ClearRect(cleared), FillRect(filled, sample), Blit(TailMask(t), x, y)]
  }

  function PlanOps(plan: seq<Stamp>): seq<DrawOp>
  {
    if plan == [] then [] else StampOps(plan[0]) + PlanOps(plan[1..])
  }

  lemma {:induction false} PlanOpsAppend(a: seq<Stamp>, b: seq<Stamp>)
    ensures PlanOps(a + b) == PlanOps(a) + PlanOps(b)
    decreases |a|
  {
    if a == [] {
      assert a + b == b;
    } else {
      assert (a + b)[1..] == a[1..] + b;
      PlanOpsAppend(a[1..], b);
    }
  }

  function CornerKeys(plan: seq<Stamp>): set<Corner>
  {
    set i | 0 <= i < |plan| && plan[i].StampCorner? :: plan[i].corner
  }

  function TailKeys(plan: seq<Stamp>): set<Tail>
  {
    set i | 0 <= i < |plan| && plan[i].StampTail? :: plan[i].tail
  }

  /** A bitmap being drawn, seen through the operations applied to it. */
  class DrawingContext {
    var ops: seq<DrawOp>

    constructor()
      ensures ops == []
    {
      ops := [];
    }

    method Blt(mask: Mask, x: real, y: real)
      modifies this
      ensures ops == old(ops) + [Blit(mask, x, y)]
    {
      ops := ops + [Blit(mask, x, y)];
    }

    /** Clears the column beside a tail and refills its foot with the colour
      * read at `sample`. */
    method PrepareTail(cleared: Rect, filled: Rect, sample: Point)
      modifies this
      ensures ops == old(ops) + [ClearRect(cleared), FillRect(filled, sample)]
    {
      ops := ops + [ClearRect(cleared), FillRect(filled, sample)];
    }
  }

  lemma KeysAppend(a: seq<Stamp>, b: seq<Stamp>)
    ensures CornerKeys(a + b) == CornerKeys(a) + CornerKeys(b)
    ensures TailKeys(a + b) == TailKeys(a) + TailKeys(b)
  {
    var all := a + b;
    forall c | c in CornerKeys(all)
      ensures c in CornerKeys(a) + CornerKeys(b)
    {
      var i :| 0 <= i < |all| && all[i].StampCorner? && all[i].corner == c;
      if i >= |a| {
        assert b[i - |a|] == all[i];
      }
    }
    forall c | c in CornerKeys(a) + CornerKeys(b)
      ensures c in CornerKeys(all)
    {
      if c in CornerKeys(a) {
        var i :| 0 <= i < |a| && a[i].StampCorner? && a[i].corner == c;
        assert all[i] == a[i];
      } else {
        var i :| 0 <= i < |b| && b[i].StampCorner? && b[i].corner == c;
        assert all[|a| + i] == b[i];
      }
    }
    forall t | t in TailKeys(all)
      ensures t in TailKeys(a) + TailKeys(b)
    {
      var i :| 0 <= i < |all| && all[i].StampTail? && all[i].tail == t;
      if i >= |a| {
        assert b[i - |a|] == all[i];
      }
    }
    forall t | t in TailKeys(a) + TailKeys(b)
      ensures t in TailKeys(all)
    {
      if t in TailKeys(a) {
        var i :| 0 <= i < |a| && a[i].StampTail? && a[i].tail == t;
        assert all[i] == a[i];
      } else {
        var i :| 0 <= i < |b| && b[i].StampTail? && b[i].tail == t;
        assert all[|a| + i] == b[i];
      }
    }
  }

  /** Drawing the steps `x` and then the steps `y` draws `x + y`. */
  lemma OpsExtended(start: seq<DrawOp>, x: seq<Stamp>, y: seq<Stamp>, ops: seq<DrawOp>)
    requires ops == start + PlanOps(x) + PlanOps(y)
    ensures ops == start + PlanOps(x + y)
  {
    PlanOpsAppend(x, y);
  }

  /** Caching the keys of `x` and then those of `y` caches those of `x + y`. */
  lemma KeysExtended(startCorners: set<Corner>, startTails: set<Tail>, x: seq<Stamp>, y: seq<Stamp>,
                     cornerKeys: set<Corner>, tailKeys: set<Tail>)
    requires cornerKeys == startCorners + CornerKeys(x) + CornerKeys(y)
    requires tailKeys == startTails + TailKeys(x) + TailKeys(y)
    ensures cornerKeys == startCorners + CornerKeys(x + y)
    ensures tailKeys == startTails + TailKeys(x + y)
  {
    KeysAppend(x, y);
  }

  /** What taking a single step does to the drawing and to the caches. */
  lemma SingleStep(s: Stamp)
    ensures PlanOps([s]) == StampOps(s)
    ensures CornerKeys([s]) == (if s.StampCorner? then {s.corner} else {})
    ensures TailKeys([s]) == (if s.StampTail? then {s.tail} else {})
  {
    assert [s][1..] == [];
    assert [s][0] == s;
  }

  /** One of the four blocks of `addCorners`: finishes position `p`. */
  method FinishPosition(context: DrawingContext, cache: MaskCache, corners: ImageCorners, rect: Rect, p: Position)
    requires cache.Valid()
    modifies context, cache
    ensures cache.Valid()
    ensures context.ops == old(context.ops) + PlanOps(PositionSteps(corners, rect, p))
    ensures cache.corners.Keys == old(cache.corners.Keys) + CornerKeys(PositionSteps(corners, rect, p))
    ensures cache.tails.Keys == old(cache.tails.Keys) + TailKeys(PositionSteps(corners, rect, p))
  {
    var c := CornerAt(corners, p);
    if c.radius <= UlpOfOne || (IsTop(p) && c.TailRadius?) {
      return;
    }
    var r := c.radius;
    var s: Stamp;
    if c.TailRadius? && c.enabled && !IsTop(p) {
      var tail, sample, cleared, filled;
      if p == BottomLeftCorner {
        tail := TailBottomLeft(KeyRadius(r));
        sample := Point(rect.x, rect.MaxY() - 1.0);
        cleared := Rect(rect.x - 3.0, 0.0, 3.0, rect.MaxY() - 6.0);
        filled := Rect(0.0, rect.MaxY() - 6.0, 3.0, 6.0);
        s := StampTail(p, tail, rect.x - 3.0, rect.MaxY() - r, sample, cleared, filled);
      } else {
        tail := TailBottomRight(KeyRadius(r));
        sample := Point(rect.MaxX() - 1.0, rect.MaxY() - 1.0);
        cleared := Rect(rect.MaxX(), 0.0, 3.0, rect.MaxY() - 6.0);
        filled := Rect(rect.MaxX(), rect.MaxY() - 6.0, 3.0, 6.0);
        s := StampTail(p, tail, rect.MaxX() - r, rect.MaxY() - r, sample, cleared, filled);
      }
      var mask := cache.TailContext(tail);
      context.PrepareTail(cleared, filled, sample);
      context.Blt(mask, s.x, s.y);
    } else {
      var corner;
      if p == TopLeftCorner {
        corner := TopLeft(KeyRadius(r));
        s := StampCorner(p, corner, rect.x, rect.y);
      } else if p == TopRightCorner {
        corner := TopRight(KeyRadius(r));
        s := StampCorner(p, corner, rect.MaxX() - r, rect.y);
      } else if p == BottomLeftCorner {
        corner := BottomLeft(KeyRadius(r));
        s := StampCorner(p, corner, rect.x, rect.MaxY() - r);
      } else {
        corner := BottomRight(KeyRadius(r));
        s := StampCorner(p, corner, rect.MaxX() - r, rect.MaxY() - r);
      }
      var mask := cache.CornerContext(corner);
      context.Blt(mask, s.x, s.y);
    }
    assert PositionSteps(corners, rect, p) == [s];
    SingleStep(s);
  }

  /** Stamps the masks for the corners of an image into `context`, taking
    * them from (and adding them to) the caches. */
  method AddCorners(context: DrawingContext, cache: MaskCache, corners: ImageCorners, rect: Rect)
    requires cache.Valid()
    modifies context, cache
    ensures cache.Valid()
    ensures context.ops == old(context.ops) + PlanOps(CornerPlan(corners, rect))
    ensures cache.corners.Keys == old(cache.corners.Keys) + CornerKeys(CornerPlan(corners, rect))
    ensures cache.tails.Keys == old(cache.tails.Keys) + TailKeys(CornerPlan(corners, rect))
  {
    ghost var a := PositionSteps(corners, rect, TopLeftCorner);
    ghost var b := PositionSteps(corners, rect, TopRightCorner);
    ghost var c := PositionSteps(corners, rect, BottomLeftCorner);
    ghost var d := PositionSteps(corners, rect, BottomRightCorner);
    FinishPosition(context, cache, corners, rect, TopLeftCorner);
    FinishPosition(context, cache, corners, rect, TopRightCorner);
    OpsExtended(old(context.ops), a, b, context.ops);
    KeysExtended(old(cache.corners.Keys), old(cache.tails.Keys), a, b, cache.corners.Keys, cache.tails.Keys);
    FinishPosition(context, cache, corners, rect, BottomLeftCorner);
    OpsExtended(old(context.ops), a + b, c, context.ops);
    KeysExtended(old(cache.corners.Keys), old(cache.tails.Keys), a + b, c, cache.corners.Keys, cache.tails.Keys);
    FinishPosition(context, cache, corners, rect, BottomRightCorner);
    OpsExtended(old(context.ops), a + b + c, d, context.ops);
    KeysExtended(old(cache.corners.Keys), old(cache.tails.Keys), a + b + c, d, cache.corners.Keys, cache.tails.Keys);
  }
}
