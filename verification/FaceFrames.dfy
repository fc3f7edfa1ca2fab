/**
 The lit part of a video's frames: the smallest rectangle that holds every sample brighter than the black level,
 over all frames so far, and the window a face is cut from inside it.
 */
module FaceFrames {
  /** A frame is a square of packed three-byte pixels. */
  const Side: nat := 1280
  const BlackLevel := 16

  type Pixels = seq<nat>

  datatype Point = Point(x: int, y: int)

  datatype Rect = Rect(x0: int, y0: int, x1: int, y1: int)

  const Zero := Rect(0, 0, 0, 0)
  const Whole := Rect(0, 0, Side, Side)

  predicate Empty(r: Rect) {
    r.x0 >= r.x1 || r.y0 >= r.y1
  }

  predicate In(p: Point, r: Rect) {
    r.x0 <= p.x < r.x1 && r.y0 <= p.y < r.y1
  }

  predicate Frame(pix: Pixels) {
    |pix| == Side * Side * 3
  }

  function Sample(x: int, y: int): int {
    (y * Side + x) * 3
  }

  predicate Lit(pix: Pixels, p: Point) {
    In(p, Whole) && Frame(pix) &&
    var i := Sample(p.x, p.y);
    pix[i] > BlackLevel || pix[i + 1] > BlackLevel || pix[i + 2] > BlackLevel
  }

  ghost function LitPoints(pix: Pixels): iset<Point> {
    iset p: Point | Lit(pix, p)
  }

  // ---------------------------------------------------------------- bounds

  /** Each side of the rectangle has a point. */
  ghost predicate Touches(points: iset<Point>, r: Rect) {
    && (exists p :: p in points && p.x == r.x0)
    && (exists p :: p in points && p.y == r.y0)
    && (exists p :: p in points && p.x == r.x1 - 1)
    && (exists p :: p in points && p.y == r.y1 - 1)
  }

  ghost predicate Inside(points: iset<Point>, r: Rect) {
    forall p | p in points :: In(p, r)
  }

  /** The zero rectangle for no points, else one that holds them all and no room beyond. */
  ghost predicate Bounds(points: iset<Point>, r: Rect) {
    if points == iset{} then r == Zero else Inside(points, r) && Touches(points, r)
  }

  predicate Within(r: Rect, s: Rect) {
    s.x0 <= r.x0 && s.y0 <= r.y0 && r.x1 <= s.x1 && r.y1 <= s.y1
  }

  /** The bounds are the smallest rectangle that holds the points, and empty exactly when there is none. */
  lemma BoundsAreSmallest(points: iset<Point>, r: Rect, s: Rect)
    requires Bounds(points, r)
    ensures Empty(r) <==> points == iset{}
    ensures points != iset{} ==> (Inside(points, s) <==> Within(r, s))
  {
    if points != iset{} {
      var p :| p in points;
      assert In(p, r);
    }
  }

  /** image.Rectangle.Union. */
  function Union(r: Rect, s: Rect): Rect {
    if Empty(r) then s
    else if Empty(s) then r
    else Rect(if s.x0 < r.x0 then s.x0 else r.x0, if s.y0 < r.y0 then s.y0 else r.y0,
              if s.x1 > r.x1 then s.x1 else r.x1, if s.y1 > r.y1 then s.y1 else r.y1)
  }

  lemma UnionBounds(a: iset<Point>, r: Rect, b: iset<Point>, s: Rect)
    requires Bounds(a, r) && Bounds(b, s)
    ensures Bounds(a + b, Union(r, s))
  {
    BoundsAreSmallest(a, r, r);
    BoundsAreSmallest(b, s, s);
    if a == iset{} {
      assert a + b == b;
    } else if b == iset{} {
      assert a + b == a;
    } else {
      UnionTouches(a, r, b, s);
    }
  }

  lemma UnionTouches(a: iset<Point>, r: Rect, b: iset<Point>, s: Rect)
    requires Touches(a, r) && Touches(b, s) && !Empty(r) && !Empty(s)
    ensures Touches(a + b, Union(r, s))
  {
    var left :| (left in a && left.x == r.x0);
    var left2 :| (left2 in b && left2.x == s.x0);
    var top :| (top in a && top.y == r.y0);
    var top2 :| (top2 in b && top2.y == s.y0);
    var right :| (right in a && right.x == r.x1 - 1);
    var right2 :| (right2 in b && right2.x == s.x1 - 1);
    var bottom :| (bottom in a && bottom.y == r.y1 - 1);
    var bottom2 :| (bottom2 in b && bottom2.y == s.y1 - 1);
    assert left in a + b && left2 in a + b && top in a + b && top2 in a + b;
    assert right in a + b && right2 in a + b && bottom in a + b && bottom2 in a + b;
  }

  // ---------------------------------------------------------------- one frame

  /** No sample of the rectangle is lit. */
  ghost predicate Black(pix: Pixels, r: Rect) {
    forall p: Point | In(p, r) :: !Lit(pix, p)
  }

  lemma RowBlack(pix: Pixels, y: int, x0: int, x1: int)
    requires Frame(pix) && 0 <= y < Side && 0 <= x0 <= x1 <= Side
    requires forall i | Sample(x0, y) <= i < Sample(x1, y) :: pix[i] <= BlackLevel
    ensures Black(pix, Rect(x0, y, x1, y + 1))
  {
    forall p: Point | In(p, Rect(x0, y, x1, y + 1)) ensures !Lit(pix, p) {
      var i := Sample(p.x, p.y);
      assert Sample(x0, y) <= i && i + 2 < Sample(x1, y);
    }
  }

  lemma SampleLit(pix: Pixels, y: int, x0: int, x1: int, i: int) returns (p: Point)
    requires Frame(pix) && 0 <= y < Side && 0 <= x0 <= x1 <= Side
    requires Sample(x0, y) <= i < Sample(x1, y) && pix[i] > BlackLevel
    ensures In(p, Rect(x0, y, x1, y + 1)) && Lit(pix, p)
  {
    p := Point(i / 3 - y * Side, y);
    assert Sample(p.x, p.y) <= i < Sample(p.x, p.y) + 3;
  }

  method IsBlack(pix: Pixels, r: Rect) returns (black: bool)
    requires Frame(pix) && Within(r, Whole) && r.x0 <= r.x1
    ensures black <==> Black(pix, r)
  {
    var y := r.y0;
    while y < r.y1
      invariant r.y0 <= y && Black(pix, Rect(r.x0, r.y0, r.x1, y))
    {
      var i, end := Sample(r.x0, y), Sample(r.x1, y);
      while i < end
        invariant Sample(r.x0, y) <= i <= end
        invariant forall j | Sample(r.x0, y) <= j < i :: pix[j] <= BlackLevel
      {
        if pix[i] > BlackLevel {
          var p := SampleLit(pix, y, r.x0, r.x1, i);
          return false;
        }
        i := i + 1;
      }
      RowBlack(pix, y, r.x0, r.x1);
      y := y + 1;
    }
    return true;
  }

  /** A strip that is not black holds a lit point. */
  lemma StripLit(pix: Pixels, r: Rect) returns (p: Point)
    requires !Black(pix, r)
    ensures In(p, r) && p in LitPoints(pix)
  {
    p :| In(p, r) && Lit(pix, p);
  }

  /** Three of the four trimming loops have no guard: a lit sample stops them. */
  method LitBounds(pix: Pixels) returns (r: Rect)
    requires Frame(pix)
    ensures Bounds(LitPoints(pix), r) && Within(r, Whole)
  {
    ghost var lit := LitPoints(pix);
    r := Whole;
    var black := IsBlack(pix, Rect(0, 0, Side, 1));
    while r.y0 < r.y1 && black
      invariant r == Whole.(y0 := r.y0) && 0 <= r.y0 <= Side && Inside(lit, r)
      invariant r.y0 < Side ==> black == Black(pix, Rect(0, r.y0, Side, r.y0 + 1))
    {
      r := r.(y0 := r.y0 + 1);
      if r.y0 < r.y1 {
        black := IsBlack(pix, Rect(0, r.y0, Side, r.y0 + 1));
      }
    }
    if Empty(r) {
      assert lit == iset{};
      return Zero;
    }
    ghost var top := StripLit(pix, Rect(0, r.y0, Side, r.y0 + 1));
    r := TrimBottom(pix, r, top);
    r := TrimSides(pix, r, top);
  }

  method TrimBottom(pix: Pixels, from: Rect, ghost top: Point) returns (r: Rect)
    requires Frame(pix) && from == Whole.(y0 := from.y0) && 0 <= from.y0 < Side
    requires Inside(LitPoints(pix), from) && top in LitPoints(pix) && top.y == from.y0
    ensures r == from.(y1 := r.y1) && r.y0 < r.y1 <= Side && Inside(LitPoints(pix), r)
    ensures exists p :: p in LitPoints(pix) && p.y == r.y1 - 1
  {
    r := from;
    var black := IsBlack(pix, Rect(0, r.y1 - 1, Side, r.y1));
    while black
      invariant r == from.(y1 := r.y1) && r.y0 < r.y1 <= Side && Inside(LitPoints(pix), r)
      invariant black == Black(pix, Rect(0, r.y1 - 1, Side, r.y1))
      decreases r.y1, black
    {
      assert In(top, r) && top.y != r.y1 - 1;
      r := r.(y1 := r.y1 - 1);
      black := IsBlack(pix, Rect(0, r.y1 - 1, Side, r.y1));
    }
    ghost var p := StripLit(pix, Rect(0, r.y1 - 1, Side, r.y1));
  }

  method TrimSides(pix: Pixels, from: Rect, ghost top: Point) returns (r: Rect)
    requires Frame(pix) && from.x0 == 0 && from.x1 == Side && 0 <= from.y0 < from.y1 <= Side
    requires Inside(LitPoints(pix), from) && top in LitPoints(pix)
    ensures r == from.(x0 := r.x0, x1 := r.x1) && 0 <= r.x0 < r.x1 <= Side && Inside(LitPoints(pix), r)
    ensures exists p :: p in LitPoints(pix) && p.x == r.x0
    ensures exists p :: p in LitPoints(pix) && p.x == r.x1 - 1
  {
    r := from;
    var black := IsBlack(pix, Rect(r.x0, r.y0, r.x0 + 1, r.y1));
    while black
      invariant r == from.(x0 := r.x0) && 0 <= r.x0 < Side && Inside(LitPoints(pix), r)
      invariant black == Black(pix, Rect(r.x0, r.y0, r.x0 + 1, r.y1))
      decreases Side - r.x0, black
    {
      assert In(top, r) && top.x != r.x0;
      r := r.(x0 := r.x0 + 1);
      black := IsBlack(pix, Rect(r.x0, r.y0, r.x0 + 1, r.y1));
    }
    ghost var left := StripLit(pix, Rect(r.x0, r.y0, r.x0 + 1, r.y1));
    black := IsBlack(pix, Rect(r.x1 - 1, r.y0, r.x1, r.y1));
    while black
      invariant r == from.(x0 := r.x0, x1 := r.x1) && 0 <= r.x0 < r.x1 <= Side && Inside(LitPoints(pix), r)
      invariant left.x == r.x0
      invariant black == Black(pix, Rect(r.x1 - 1, r.y0, r.x1, r.y1))
      decreases r.x1, black
    {
      assert In(left, r) && left.x != r.x1 - 1;
      r := r.(x1 := r.x1 - 1);
      black := IsBlack(pix, Rect(r.x1 - 1, r.y0, r.x1, r.y1));
    }
    ghost var right := StripLit(pix, Rect(r.x1 - 1, r.y0, r.x1, r.y1));
  }

  // ---------------------------------------------------------------- a video

  ghost predicate LitIn(frames: seq<Pixels>, p: Point) {
    exists pix :: pix in frames && Lit(pix, p)
  }

  ghost function AllLit(frames: seq<Pixels>): iset<Point> {
    iset p: Point | LitIn(frames, p)
  }

  class FaceVideo {
    var lit: Rect
    ghost var frames: seq<Pixels>

    ghost predicate Valid()
      reads this
    {
      Bounds(AllLit(frames), lit)
    }

    constructor ()
      ensures Valid() && frames == [] && lit == Zero
    {
      lit, frames := Zero, [];
      new;
      assert AllLit(frames) == iset{};
    }

    /** The picture of the video so far: what any frame lit, or the whole square while none did. */
    method Add(pix: Pixels) returns (picture: Rect)
      requires Valid() && Frame(pix)
      modifies this
      ensures Valid() && frames == old(frames) + [pix]
      ensures picture == (if AllLit(frames) == iset{} then Whole else lit) && !Empty(picture)
      ensures old(lit) != Zero ==> Within(old(lit), lit)
    {
      var bounds := LitBounds(pix);
      assert AllLit(frames + [pix]) == AllLit(frames) + LitPoints(pix) by {
        AddedLit(frames, pix);
      }
      UnionBounds(AllLit(frames), lit, LitPoints(pix), bounds);
      BoundsAreSmallest(AllLit(frames), lit, lit);
      lit, frames := Union(lit, bounds), frames + [pix];
      BoundsAreSmallest(AllLit(frames), lit, lit);
      picture := if Empty(lit) then Whole else lit;
    }
  }

  lemma AddedLit(frames: seq<Pixels>, pix: Pixels)
    ensures AllLit(frames + [pix]) == AllLit(frames) + LitPoints(pix)
  {
    forall p: Point ensures p in AllLit(frames + [pix]) <==> p in AllLit(frames) + LitPoints(pix) {
      if p in AllLit(frames) {
        var f :| f in frames && Lit(f, p);
        assert f in frames + [pix];
      }
      assert pix in frames + [pix];
    }
  }

  // ---------------------------------------------------------------- the window of a face

  /** math.Round: halves away from zero. */
  function Round(r: real): int {
    if r >= 0.0 then (r + 0.5).Floor else -((-r + 0.5).Floor)
  }

  /** The start and end of a window around a centre, moved inside lo and hi rather than cut. */
  function Place(centre: real, half: real, lo: int, hi: int): (window: (int, int)) {
    var wanted := Round(2.0 * half);
    var size := if wanted < hi - lo then wanted else hi - lo;
    var start := Round(centre - half);
    var low := if start < hi - size then start else hi - size;
    var placed := if lo > low then lo else low;
    (placed, placed + size)
  }

  /** The window lies in the picture, is as large as asked unless the picture is smaller, and is as near as can be. */
  lemma PlaceMeans(centre: real, half: real, lo: int, hi: int, other: int)
    requires half >= 0.0 && lo <= hi
    ensures var (start, end) := Place(centre, half, lo, hi);
            && lo <= start <= end <= hi
            && end - start == (if Round(2.0 * half) < hi - lo then Round(2.0 * half) else hi - lo)
            && (lo <= other && other + (end - start) <= hi ==>
                Distance(start, Round(centre - half)) <= Distance(other, Round(centre - half)))
  {
  }

  function Distance(a: int, b: int): nat {
    if a < b then b - a else a - b
  }
}
