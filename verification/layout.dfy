/** The LED layout: two concentric rings, protocol indices numbered outer ring
    first, then inner ring. The floating-point circle geometry is an input
    (`Placement`); this module keeps the index sets and the grid clamping. */
module Layout {
  import opened Protocol

  datatype Point = Point(x: int, y: int)

  datatype Ring = Outer | Inner

  /** "Outer 3", "Inner 1": the ring and the 1-based position on it. */
  datatype LedName = LedName(ring: Ring, number: nat)

  /** The rounded grid cell of LED `i` of `count` on a ring, before clamping
      (Math.round of the centre plus radius times cos/sin). */
  type Placement = (Ring, nat, nat) -> Point

  /** The enhanced layout's fields after generateLayout. */
  datatype LedLayout = LedLayout(
    outerCount: nat,
    innerCount: nat,
    positions: seq<Point>,
    names: seq<LedName>,
    outer: seq<nat>,
    inner: seq<nat>)

  /** Grid of the enhanced layout: 10 x 8 cells. */
  const GridMaxX := 9
  const GridMaxY := 7

  function Clamp(p: Point): (q: Point)
    ensures 0 <= q.x <= GridMaxX && 0 <= q.y <= GridMaxY
    ensures 0 <= p.x <= GridMaxX ==> q.x == p.x
    ensures 0 <= p.y <= GridMaxY ==> q.y == p.y
  {
    Point(if p.x < 0 then 0 else if p.x > GridMaxX then GridMaxX else p.x,
          if p.y < 0 then 0 else if p.y > GridMaxY then GridMaxY else p.y)
  }

  /** lo, lo+1, ..., lo+n-1 */
  function Range(lo: nat, n: nat): (r: seq<nat>)
    ensures |r| == n
    ensures forall k :: 0 <= k < n ==> r[k] == lo + k
  {
    seq(n, k requires 0 <= k < n => lo + k)
  }

  /** The clamped cells of the first `n` LEDs of a ring of `count`. */
  function RingPositions(ring: Ring, count: nat, place: Placement, n: nat): (r: seq<Point>)
    ensures |r| == n
  {
    seq(n, k requires 0 <= k < n => Clamp(place(ring, k, count)))
  }

  /** The names of the first `n` LEDs of a ring. */
  function RingNames(ring: Ring, n: nat): (r: seq<LedName>)
    ensures |r| == n
  {
    seq(n, k requires 0 <= k < n => LedName(ring, k + 1))
  }

  /** The layout generateLayout builds for the given ring sizes. */
  function LayoutSpec(outerCount: nat, innerCount: nat, place: Placement): LedLayout {
    LedLayout(
      outerCount, innerCount,
      RingPositions(Outer, outerCount, place, outerCount) + RingPositions(Inner, innerCount, place, innerCount),
      RingNames(Outer, outerCount) + RingNames(Inner, innerCount),
      Range(0, outerCount),
      Range(outerCount, innerCount))
  }

  /** The shape every generated layout has. */
  ghost predicate WellFormed(l: LedLayout) {
    && |l.positions| == l.outerCount + l.innerCount
    && |l.names| == l.outerCount + l.innerCount
    && l.outer == Range(0, l.outerCount)
    && l.inner == Range(l.outerCount, l.innerCount)
  }

  /** The GalahudLEDLayout constructor: two loops pushing onto positions,
      names and the ring index lists. */
  method GenerateLayout(outerCount: nat, innerCount: nat, place: Placement) returns (l: LedLayout)
    ensures l == LayoutSpec(outerCount, innerCount, place)
  {
    var positions: seq<Point> := [];
    var names: seq<LedName> := [];
    var outer: seq<nat> := [];
    var inner: seq<nat> := [];
    var i := 0;
    while i < outerCount
      invariant 0 <= i <= outerCount
      invariant positions == RingPositions(Outer, outerCount, place, i)
      invariant names == RingNames(Outer, i)
      invariant outer == Range(0, i)
    {
      positions := positions + [Clamp(place(Outer, i, outerCount))];
      names := names + [LedName(Outer, i + 1)];
      outer := outer + [i];
      i := i + 1;
    }
    ghost var outerPositions := positions;
    ghost var outerNames := names;
    i := 0;
    while i < innerCount
      invariant 0 <= i <= innerCount
      invariant positions == outerPositions + RingPositions(Inner, innerCount, place, i)
      invariant names == outerNames + RingNames(Inner, i)
      invariant inner == Range(outerCount, i)
    {
      positions := positions + [Clamp(place(Inner, i, innerCount))];
      names := names + [LedName(Inner, i + 1)];
      inner := inner + [outerCount + i];
      i := i + 1;
    }
    l := LedLayout(outerCount, innerCount, positions, names, outer, inner);
  }

  /** The generated layout: indices 0..outerCount-1 on the outer ring in order,
      then outerCount..total-1 on the inner ring in order; every position is
      inside the 10 x 8 grid; LED `i` of a ring sits at the clamped placement. */
  lemma LayoutSpecShape(outerCount: nat, innerCount: nat, place: Placement)
    ensures var l := LayoutSpec(outerCount, innerCount, place);
            && WellFormed(l)
            && (forall k :: 0 <= k < |l.positions| ==>
                  0 <= l.positions[k].x <= GridMaxX && 0 <= l.positions[k].y <= GridMaxY)
            && (forall i :: 0 <= i < outerCount ==>
                  l.positions[l.outer[i]] == Clamp(place(Outer, i, outerCount)) && l.names[l.outer[i]] == LedName(Outer, i + 1))
            && (forall i :: 0 <= i < innerCount ==>
                  l.positions[l.inner[i]] == Clamp(place(Inner, i, innerCount)) && l.names[l.inner[i]] == LedName(Inner, i + 1))
  {
    var l := LayoutSpec(outerCount, innerCount, place);
    forall k | 0 <= k < |l.positions|
      ensures 0 <= l.positions[k].x <= GridMaxX && 0 <= l.positions[k].y <= GridMaxY
    {
      if k < outerCount {
        assert l.positions[k] == Clamp(place(Outer, k, outerCount));
      } else {
        assert l.positions[k] == Clamp(place(Inner, k - outerCount, innerCount));
      }
    }
  }

  /** getActiveIndices: the index list a ring mode drives. */
  function ActiveIndices(l: LedLayout, mode: RingMode): seq<nat> {
    match mode
    case OuterRingOnly => l.outer
    case InnerRingOnly => l.inner
    case _ => l.outer + l.inner
  }

  /** On a well-formed layout: outer-only drives 0..outerCount-1, inner-only
      drives outerCount..total-1, and Combined, Independent Rings and every
      unknown mode drive all LEDs 0..total-1, outer ring first. Every active
      index addresses a position, and no index appears twice. */
  lemma ActiveIndicesSpec(l: LedLayout, mode: RingMode)
    requires WellFormed(l)
    ensures mode == OuterRingOnly ==> ActiveIndices(l, mode) == Range(0, l.outerCount)
    ensures mode == InnerRingOnly ==> ActiveIndices(l, mode) == Range(l.outerCount, l.innerCount)
    ensures mode != OuterRingOnly && mode != InnerRingOnly ==>
              ActiveIndices(l, mode) == Range(0, l.outerCount + l.innerCount)
    ensures forall k :: 0 <= k < |ActiveIndices(l, mode)| ==> ActiveIndices(l, mode)[k] < |l.positions|
    ensures forall k, m :: 0 <= k < m < |ActiveIndices(l, mode)| ==> ActiveIndices(l, mode)[k] < ActiveIndices(l, mode)[m]
  {
    var a := ActiveIndices(l, mode);
    if mode != OuterRingOnly && mode != InnerRingOnly {
      assert a == l.outer + l.inner;
      forall k | 0 <= k < |a| ensures a[k] == k {
        if k < l.outerCount {
          assert a[k] == l.outer[k];
        } else {
          assert a[k] == l.inner[k - l.outerCount];
        }
      }
    }
  }

  /** The default Trinity layout (16 outer, 8 inner). */
  lemma TrinityActiveSets(place: Placement)
    ensures var l := LayoutSpec(16, 8, place);
            && ActiveIndices(l, OuterRingOnly) == Range(0, 16)
            && ActiveIndices(l, InnerRingOnly) == Range(16, 8)
            && ActiveIndices(l, Combined) == Range(0, 24)
  {
    var l := LayoutSpec(16, 8, place);
    LayoutSpecShape(16, 8, place);
    ActiveIndicesSpec(l, Combined);
  }

  /** Ring split of the enhanced Initialize: Math.ceil(n * 0.67) outer LEDs,
      computed exactly as the least integer not below 67n/100. */
  function EnhancedOuterCount(n: nat): (outer: nat)
    ensures 100 * outer >= 67 * n
    ensures outer == 0 || 100 * (outer - 1) < 67 * n
    ensures outer <= n
  {
    (67 * n + 99) / 100
  }

  /** Ring split of the basic plugin's generateLEDLayout: Math.ceil(n * 0.7). */
  function BasicOuterCount(n: nat): (outer: nat)
    ensures 10 * outer >= 7 * n
    ensures outer == 0 || 10 * (outer - 1) < 7 * n
    ensures outer <= n
  {
    (7 * n + 9) / 10
  }
}
