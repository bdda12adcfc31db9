/** Tile addressing: a pyramid of zoom levels over a world envelope, the choice of a level for
    a requested resolution, and the list of tile indices that cover a bounding box. */
module TileScheme {
  import opened Primitives

  /** A level is chosen while `resolution * 0.99` is still below the requested resolution. */
  const LEVEL_SELECTION_TOLERANCE: real := 0.99

  /** Address of one tile: column, row and the z-index of its level. */
  datatype TileIndex = TileIndex(x: int, y: int, z: int)

  /** Axis-aligned box in world coordinates, built as `Envelope::new(x_min, y_min, x_max, y_max)`. */
  datatype Envelope = Envelope(x_min: real, y_min: real, x_max: real, y_max: real)

  datatype TileLevel = TileLevel(z_index: int, resolution: real)

  /** Whether tile rows are counted upwards from the origin or downwards from it. */
  datatype TilesDirection = BottomToTop | TopToBottom

  datatype TileSchema = TileSchema(
    tile_width: nat,
    tile_height: nat,
    origin: Point,
    envelope: Envelope,
    y_direction: TilesDirection,
    levels: seq<TileLevel>)

  /** What `get_indices` needs of a schema: positive tile sizes and resolutions (so that the
      divisions are defined) and at least one level (`levels.last().unwrap()` panics otherwise). */
  predicate ValidSchema(s: TileSchema)
  {
    && s.tile_width > 0
    && s.tile_height > 0
    && |s.levels| > 0
    && forall i :: 0 <= i < |s.levels| ==> s.levels[i].resolution > 0.0
  }

  // ---------------------------------------------------------------------------------------
  // The order of levels

  datatype Ordering = Less | Equal | Greater

  /** `Ordering::reverse`. */
  function Reverse(o: Ordering): Ordering
  {
    match o
    case Less => Greater
    case Equal => Equal
    case Greater => Less
  }

  /** `f32::partial_cmp` on non-NaN values (which always answers). */
  function CompareReals(a: real, b: real): Ordering
  {
    if a < b then Less else if a == b then Equal else Greater
  }

  /** Levels are equal when their resolutions are, whatever their z-index. */
  predicate SameLevel(a: TileLevel, b: TileLevel)
  {
    a.resolution == b.resolution
  }

  /** `TileLevel::cmp`: the resolution comparison reversed, so a coarser level sorts first. */
  function CompareLevels(a: TileLevel, b: TileLevel): (o: Ordering)
    ensures o == Less <==> a.resolution > b.resolution
    ensures o == Greater <==> a.resolution < b.resolution
    ensures o == Equal <==> SameLevel(a, b)
  {
    Reverse(CompareReals(a.resolution, b.resolution))
  }

  /** The order `CompareLevels` defines is total and antisymmetric, and it agrees with `SameLevel`. */
  lemma CompareLevelsIsOrder(a: TileLevel, b: TileLevel, c: TileLevel)
    ensures CompareLevels(a, b) == Reverse(CompareLevels(b, a))
    ensures CompareLevels(a, b) != Greater && CompareLevels(b, c) != Greater ==> CompareLevels(a, c) != Greater
  {
  }

  /** Coarsest first: resolutions never increase along the sequence. */
  ghost predicate CoarsestFirst(levels: seq<TileLevel>)
  {
    forall i, j :: 0 <= i < j < |levels| ==> levels[i].resolution >= levels[j].resolution
  }

  ghost predicate StrictlyCoarsestFirst(levels: seq<TileLevel>)
  {
    forall i, j :: 0 <= i < j < |levels| ==> levels[i].resolution > levels[j].resolution
  }

  /** Inserts one level into a coarsest-first sequence, before the first level it does not
      sort after. */
  function InsertLevel(l: TileLevel, sorted: seq<TileLevel>): (r: seq<TileLevel>)
    requires CoarsestFirst(sorted)
    ensures CoarsestFirst(r)
    ensures multiset(r) == multiset(sorted) + multiset{l}
    ensures |r| == |sorted| + 1
  {
    if sorted == [] || CompareLevels(l, sorted[0]) != Greater then
      [l] + sorted
    else
      TailFacts(sorted);
      var rest := InsertLevel(l, sorted[1..]);
      BoundCarriesOver(sorted[0], l, sorted[1..], rest);
      PrependCoarsest(sorted[0], rest);
      [sorted[0]] + rest
  }

  /** The tail of a non-empty coarsest-first sequence is coarsest-first, holds the rest of its
      levels, and none of them is coarser than the head. */
  lemma TailFacts(sorted: seq<TileLevel>)
    requires CoarsestFirst(sorted) && |sorted| > 0
    ensures CoarsestFirst(sorted[1..])
    ensures multiset(sorted) == multiset{sorted[0]} + multiset(sorted[1..])
    ensures forall x | x in multiset(sorted[1..]) :: sorted[0].resolution >= x.resolution
  {
    assert sorted == [sorted[0]] + sorted[1..];
    HeadIsCoarsest(sorted);
  }

  /** A level at least as coarse as every level of `tail` and as `l` is at least as coarse as
      every level of anything holding exactly those. */
  lemma BoundCarriesOver(h: TileLevel, l: TileLevel, tail: seq<TileLevel>, rest: seq<TileLevel>)
    requires forall x | x in multiset(tail) :: h.resolution >= x.resolution
    requires h.resolution >= l.resolution
    requires multiset(rest) == multiset(tail) + multiset{l}
    ensures forall x | x in multiset(rest) :: h.resolution >= x.resolution
  {
  }

  /** A level at least as coarse as every level of a coarsest-first sequence can go in front. */
  lemma PrependCoarsest(h: TileLevel, rest: seq<TileLevel>)
    requires CoarsestFirst(rest)
    requires forall x | x in multiset(rest) :: h.resolution >= x.resolution
    ensures CoarsestFirst([h] + rest)
  {
    var r := [h] + rest;
    forall i, j | 0 <= i < j < |r| ensures r[i].resolution >= r[j].resolution {
      assert r[j] == rest[j - 1] && r[j] in multiset(rest);
    }
  }

  /** The head of a coarsest-first sequence is at least as coarse as every level after it. */
  lemma HeadIsCoarsest(sorted: seq<TileLevel>)
    requires CoarsestFirst(sorted) && |sorted| > 0
    ensures forall x | x in multiset(sorted[1..]) :: sorted[0].resolution >= x.resolution
  {
    forall x | x in multiset(sorted[1..]) ensures sorted[0].resolution >= x.resolution {
      var j :| 0 <= j < |sorted[1..]| && sorted[1..][j] == x;
      assert sorted[j + 1] == x;
    }
  }

  /** `SortedVec::from`: the levels sorted by `CompareLevels`. The source sorts with an unstable
      sort, so only the order of levels of equal resolution is a choice of this model. */
  function SortLevels(levels: seq<TileLevel>): (r: seq<TileLevel>)
    ensures CoarsestFirst(r)
    ensures multiset(r) == multiset(levels)
    ensures |r| == |levels|
  {
    if levels == [] then []
    else
      assert levels == [levels[0]] + levels[1..];
      InsertLevel(levels[0], SortLevels(levels[1..]))
  }

  /** After sorting, the first level is the coarsest of all. */
  lemma SortedHeadIsCoarsest(levels: seq<TileLevel>)
    requires |levels| > 0
    ensures SortLevels(levels)[0] in levels
    ensures forall i :: 0 <= i < |levels| ==> SortLevels(levels)[0].resolution >= levels[i].resolution
  {
    var r := SortLevels(levels);
    assert r[0] in multiset(r);
    forall i | 0 <= i < |levels| ensures r[0].resolution >= levels[i].resolution {
      assert levels[i] in multiset(levels);
      assert levels[i] in r;
      var j :| 0 <= j < |r| && r[j] == levels[i];
    }
  }

  /** Sorting levels that are already strictly coarsest-first changes nothing. */
  lemma {:induction false} SortStrictlySortedIsIdentity(levels: seq<TileLevel>)
    requires StrictlyCoarsestFirst(levels)
    ensures SortLevels(levels) == levels
  {
    if levels != [] {
      SortStrictlySortedIsIdentity(levels[1..]);
      assert levels == [levels[0]] + levels[1..];
    }
  }

  /** Test `levels_are_in_correct_order`, second half: of resolutions 1.0 and 2.0 the coarser
      one comes first. */
  lemma SortTwoLevelsExample()
    ensures SortLevels([TileLevel(1, 1.0), TileLevel(2, 2.0)])[0].resolution == 2.0
  {
    SortedHeadIsCoarsest([TileLevel(1, 1.0), TileLevel(2, 2.0)]);
  }

  // ---------------------------------------------------------------------------------------
  // Level selection

  /** The test `select_level` applies to each level in turn. */
  predicate Accepts(level: TileLevel, resolution: real)
  {
    level.resolution * LEVEL_SELECTION_TOLERANCE < resolution
  }

  function FirstAcceptedFrom(levels: seq<TileLevel>, resolution: real, from: nat): (i: nat)
    requires from < |levels|
    ensures from <= i < |levels|
    ensures forall j :: from <= j < i ==> !Accepts(levels[j], resolution)
    ensures Accepts(levels[i], resolution) || i == |levels| - 1
    decreases |levels| - from
  {
    if Accepts(levels[from], resolution) || from == |levels| - 1 then from
    else FirstAcceptedFrom(levels, resolution, from + 1)
  }

  /** Index of the level `select_level` returns: the first level, in order, that accepts the
      requested resolution, or the last level when none does. */
  function SelectedIndex(levels: seq<TileLevel>, resolution: real): (i: nat)
    requires |levels| > 0
    ensures i < |levels|
    ensures forall j :: 0 <= j < i ==> !Accepts(levels[j], resolution)
    ensures Accepts(levels[i], resolution)
         || (i == |levels| - 1 && forall j :: 0 <= j < |levels| ==> !Accepts(levels[j], resolution))
  {
    FirstAcceptedFrom(levels, resolution, 0)
  }

  /** The level `select_level` returns. */
  function SelectedLevel(s: TileSchema, resolution: real): TileLevel
    requires |s.levels| > 0
  {
    s.levels[SelectedIndex(s.levels, resolution)]
  }

  /** The selected level is one of the schema's levels, and it accepts the request unless it
      is the last level, which is chosen when no level accepts. */
  lemma SelectedLevelIsALevel(s: TileSchema, resolution: real)
    requires |s.levels| > 0
    ensures SelectedLevel(s, resolution) in s.levels
    ensures Accepts(SelectedLevel(s, resolution), resolution)
            || (SelectedLevel(s, resolution) == s.levels[|s.levels| - 1]
                && forall j :: 0 <= j < |s.levels| ==> !Accepts(s.levels[j], resolution))
  {
  }

  /** `TileSchema::select_level`. */
  method SelectLevel(s: TileSchema, resolution: real) returns (level: TileLevel)
    requires |s.levels| > 0
    ensures level == s.levels[SelectedIndex(s.levels, resolution)]
  {
    for index := 0 to |s.levels|
      invariant forall j :: 0 <= j < index ==> !Accepts(s.levels[j], resolution)
    {
      if s.levels[index].resolution * LEVEL_SELECTION_TOLERANCE < resolution {
        return s.levels[index];
      }
    }
    return s.levels[|s.levels| - 1];
  }

  /** A finer (smaller) request never selects an earlier level, whatever the order of levels. */
  lemma SelectLevelMonotone(levels: seq<TileLevel>, r1: real, r2: real)
    requires |levels| > 0
    requires r1 <= r2
    ensures SelectedIndex(levels, r2) <= SelectedIndex(levels, r1)
  {
    var i1, i2 := SelectedIndex(levels, r1), SelectedIndex(levels, r2);
    if Accepts(levels[i1], r1) {
      assert Accepts(levels[i1], r2);
    }
  }

  /** With coarsest-first levels, a finer request selects a level at least as fine. */
  lemma SelectedResolutionMonotone(s: TileSchema, r1: real, r2: real)
    requires |s.levels| > 0 && CoarsestFirst(s.levels)
    requires r1 <= r2
    ensures SelectedLevel(s, r1).resolution <= SelectedLevel(s, r2).resolution
  {
    SelectLevelMonotone(s.levels, r1, r2);
  }

  // ---------------------------------------------------------------------------------------
  // Tile ranges and their Cartesian product

  /** Half-open ranges `x_min..x_max` and `y_min..y_max` of tile columns and rows. */
  datatype TileRange = TileRange(x_min: int, x_max: int, y_min: int, y_max: int)

  /** Number of integers in `lo..hi`. */
  function Span(lo: int, hi: int): nat
  {
    if hi <= lo then 0 else hi - lo
  }

  /** The first tile reaching past distance `d` from the origin, `floor(d / size)`. */
  function StartTile(d: real, size: real): int
    requires size > 0.0
  {
    Floor(d / size)
  }

  /** One past the last tile starting before distance `d` from the origin, `ceil(d / size)`. */
  function EndTile(d: real, size: real): int
    requires size > 0.0
  {
    Ceil(d / size)
  }

  /** The width of the level's tiles in map units. */
  function TileWidth(s: TileSchema, level: TileLevel): (w: real)
    requires s.tile_width > 0 && level.resolution > 0.0
    ensures w > 0.0
  {
    level.resolution * s.tile_width as real
  }

  /** The height of the level's tiles in map units. */
  function TileHeight(s: TileSchema, level: TileLevel): (h: real)
    requires s.tile_height > 0 && level.resolution > 0.0
    ensures h > 0.0
  {
    level.resolution * s.tile_height as real
  }

  /** The range computation of `get_indices`: the box is clamped to the envelope, then each
      bound is measured in tiles from the origin and rounded outwards. Top-to-bottom rows are
      measured downwards from the origin. */
  function Ranges(s: TileSchema, bbox: Envelope, level: TileLevel): TileRange
    requires s.tile_width > 0 && s.tile_height > 0 && level.resolution > 0.0
  {
    var width := TileWidth(s, level);
    var height := TileHeight(s, level);
    var x_min := StartTile(MaxReal(bbox.x_min, s.envelope.x_min) - s.origin.x, width);
    var x_max := EndTile(MinReal(bbox.x_max, s.envelope.x_max) - s.origin.x, width);
    match s.y_direction
    case BottomToTop =>
      TileRange(x_min, x_max,
                StartTile(MaxReal(bbox.y_min, s.envelope.y_min) - s.origin.y, height),
                EndTile(MinReal(bbox.y_max, s.envelope.y_max) - s.origin.y, height))
    case TopToBottom =>
      TileRange(x_min, x_max,
                StartTile(s.origin.y - MinReal(bbox.y_max, s.envelope.y_max), height),
                EndTile(s.origin.y - MaxReal(bbox.y_min, s.envelope.y_min), height))
  }

  /** Tiles of column `x`, rows `y_min..y_end`, in increasing row order. */
  function Column(x: int, y_min: int, y_end: int, z: int): seq<TileIndex>
    decreases y_end - y_min
  {
    if y_end <= y_min then [] else Column(x, y_min, y_end - 1, z) + [TileIndex(x, y_end - 1, z)]
  }

  /** Tiles of columns `r.x_min..x_end`, column by column; within a column, rows `r.y_min..r.y_max`. */
  function Grid(r: TileRange, x_end: int, z: int): seq<TileIndex>
    decreases x_end - r.x_min
  {
    if x_end <= r.x_min then [] else Grid(r, x_end - 1, z) + Column(x_end - 1, r.y_min, r.y_max, z)
  }

  /** The list `get_indices` returns. */
  function Cover(s: TileSchema, bbox: Envelope, resolution: real): seq<TileIndex>
    requires ValidSchema(s)
  {
    var level := SelectedLevel(s, resolution);
    var r := Ranges(s, bbox, level);
    Grid(r, r.x_max, level.z_index)
  }

  /** `TileSchema::get_indices`: nested loops over columns and rows, pushing each index. */
  method GetIndices(s: TileSchema, bbox: Envelope, resolution: real) returns (tiles: seq<TileIndex>)
    requires ValidSchema(s)
    ensures tiles == Cover(s, bbox, resolution)
  {
    var level := SelectLevel(s, resolution);
    var r := Ranges(s, bbox, level);
    tiles := [];
    var x := r.x_min;
    while x < r.x_max
      invariant x == r.x_min || r.x_min <= x <= r.x_max
      invariant tiles == Grid(r, x, level.z_index)
    {
      var y := r.y_min;
      while y < r.y_max
        invariant y == r.y_min || r.y_min <= y <= r.y_max
        invariant tiles == Grid(r, x, level.z_index) + Column(x, r.y_min, y, level.z_index)
      {
        tiles := tiles + [TileIndex(x, y, level.z_index)];
        y := y + 1;
      }
      assert Column(x, r.y_min, y, level.z_index) == Column(x, r.y_min, r.y_max, level.z_index);
      x := x + 1;
    }
    assert Grid(r, x, level.z_index) == Grid(r, r.x_max, level.z_index);
  }

  // ---------------------------------------------------------------------------------------
  // What the product contains

  /** Lexicographic order by column, then row: the order of the nested loops. */
  predicate Before(a: TileIndex, b: TileIndex)
  {
    a.x < b.x || (a.x == b.x && a.y < b.y)
  }

  lemma {:induction false} ColumnContents(x: int, y_min: int, y_end: int, z: int)
    ensures |Column(x, y_min, y_end, z)| == Span(y_min, y_end)
    ensures forall k :: 0 <= k < |Column(x, y_min, y_end, z)| ==>
              Column(x, y_min, y_end, z)[k] == TileIndex(x, y_min + k, z)
    decreases y_end - y_min
  {
    if y_end > y_min {
      ColumnContents(x, y_min, y_end - 1, z);
    }
  }

  /** The product has one entry per column and row. */
  lemma {:induction false} GridLength(r: TileRange, x_end: int, z: int)
    ensures |Grid(r, x_end, z)| == Span(r.x_min, x_end) * Span(r.y_min, r.y_max)
    decreases x_end - r.x_min
  {
    if x_end > r.x_min {
      GridLength(r, x_end - 1, z);
      ColumnContents(x_end - 1, r.y_min, r.y_max, z);
      assert Span(r.x_min, x_end) == Span(r.x_min, x_end - 1) + 1;
    }
  }

  /** The product holds exactly the indices inside both ranges, each carrying `z`. */
  lemma {:induction false} GridMembers(r: TileRange, x_end: int, z: int)
    ensures forall t :: t in Grid(r, x_end, z) <==>
              r.x_min <= t.x < x_end && r.y_min <= t.y < r.y_max && t.z == z
    decreases x_end - r.x_min
  {
    if x_end > r.x_min {
      var g, c := Grid(r, x_end - 1, z), Column(x_end - 1, r.y_min, r.y_max, z);
      GridMembers(r, x_end - 1, z);
      ColumnContents(x_end - 1, r.y_min, r.y_max, z);
      assert Grid(r, x_end, z) == g + c;
      forall t: TileIndex ensures t in g + c <==> r.x_min <= t.x < x_end && r.y_min <= t.y < r.y_max && t.z == z {
        if r.x_min <= t.x < x_end && r.y_min <= t.y < r.y_max && t.z == z && t.x == x_end - 1 {
          assert c[t.y - r.y_min] == t;
        }
      }
    }
  }

  /** The product is strictly increasing in column-then-row order. */
  lemma {:induction false} GridOrdered(r: TileRange, x_end: int, z: int)
    ensures forall i, j :: 0 <= i < j < |Grid(r, x_end, z)| ==>
              Before(Grid(r, x_end, z)[i], Grid(r, x_end, z)[j])
    decreases x_end - r.x_min
  {
    if x_end > r.x_min {
      var g, c := Grid(r, x_end - 1, z), Column(x_end - 1, r.y_min, r.y_max, z);
      GridOrdered(r, x_end - 1, z);
      GridMembers(r, x_end - 1, z);
      ColumnContents(x_end - 1, r.y_min, r.y_max, z);
      assert Grid(r, x_end, z) == g + c;
      forall i, j | 0 <= i < j < |g + c| ensures Before((g + c)[i], (g + c)[j]) {
        if j >= |g| && i < |g| {
          assert g[i] in g;
        }
      }
    }
  }

  // ---------------------------------------------------------------------------------------
  // Properties of get_indices

  /** Output structure of `get_indices`: every index carries the selected level's z, the list
      is the product of the level's column and row ranges in column-then-row order, and its
      length is the product of the two range widths (zero when either range is empty). */
  lemma CoverShape(s: TileSchema, bbox: Envelope, resolution: real)
    requires ValidSchema(s)
    ensures var level := SelectedLevel(s, resolution);
            var r := Ranges(s, bbox, level);
            && |Cover(s, bbox, resolution)| == Span(r.x_min, r.x_max) * Span(r.y_min, r.y_max)
            && (forall t :: t in Cover(s, bbox, resolution) <==>
                  r.x_min <= t.x < r.x_max && r.y_min <= t.y < r.y_max && t.z == level.z_index)
            && (forall i, j :: 0 <= i < j < |Cover(s, bbox, resolution)| ==>
                  Before(Cover(s, bbox, resolution)[i], Cover(s, bbox, resolution)[j]))
  {
    var level := SelectedLevel(s, resolution);
    var r := Ranges(s, bbox, level);
    GridLength(r, r.x_max, level.z_index);
    GridMembers(r, r.x_max, level.z_index);
    GridOrdered(r, r.x_max, level.z_index);
  }

  /** Tile `k` of size `size` (distances `k*size .. (k+1)*size` from the origin) is in
      `StartTile(lo) .. EndTile(hi)` exactly when it reaches past `lo` and starts before `hi`. */
  lemma SpanMeets(lo: real, hi: real, size: real, k: int)
    requires size > 0.0
    ensures StartTile(lo, size) <= k < EndTile(hi, size)
        <==> k as real * size < hi && lo < (k + 1) as real * size
  {
    var a, b := lo / size, hi / size;
    assert a * size == lo && b * size == hi;
    assert k as real < b <==> k as real * size < b * size;
    assert a < (k + 1) as real <==> a * size < (k + 1) as real * size;
  }

  /** Tile `k` of an axis counted upwards from `origin` spans `origin + k*size .. origin + (k+1)*size`;
      it overlaps `lo..hi` when it starts before `hi` and ends after `lo`. */
  predicate OverlapsUpwards(k: int, lo: real, hi: real, origin: real, size: real)
  {
    origin + k as real * size < hi && lo < origin + (k + 1) as real * size
  }

  /** Tile `k` of an axis counted downwards from `origin` spans `origin - (k+1)*size .. origin - k*size`. */
  predicate OverlapsDownwards(k: int, lo: real, hi: real, origin: real, size: real)
  {
    origin - (k + 1) as real * size < hi && lo < origin - k as real * size
  }

  lemma AxisMeets(lo: real, hi: real, origin: real, size: real, k: int)
    requires size > 0.0
    ensures StartTile(lo - origin, size) <= k < EndTile(hi - origin, size)
        <==> OverlapsUpwards(k, lo, hi, origin, size)
  {
    SpanMeets(lo - origin, hi - origin, size, k);
  }

  lemma AxisMeetsDownwards(lo: real, hi: real, origin: real, size: real, k: int)
    requires size > 0.0
    ensures StartTile(origin - hi, size) <= k < EndTile(origin - lo, size)
        <==> OverlapsDownwards(k, lo, hi, origin, size)
  {
    SpanMeets(origin - hi, origin - lo, size, k);
  }

  /** Column `k` of the level starts before the clamped upper x bound and ends after the clamped
      lower one. For a box that misses the envelope the clamped bounds cross, and a column can pass
      this test while meeting nothing; `ColumnInteriorMeetsBox` covers the uncrossed case. */
  ghost predicate ColumnMeetsBox(s: TileSchema, level: TileLevel, bbox: Envelope, k: int)
  {
    OverlapsUpwards(k, MaxReal(bbox.x_min, s.envelope.x_min), MinReal(bbox.x_max, s.envelope.x_max),
                    s.origin.x, level.resolution * s.tile_width as real)
  }

  /** Row `k` of the level starts before the clamped upper y bound and ends after the clamped
      lower one. Under `TopToBottom`, row `k` spans the world rows
      `origin.y - (k+1)*height .. origin.y - k*height`. */
  ghost predicate RowMeetsBox(s: TileSchema, level: TileLevel, bbox: Envelope, k: int)
  {
    var y_lo, y_hi := MaxReal(bbox.y_min, s.envelope.y_min), MinReal(bbox.y_max, s.envelope.y_max);
    var height := level.resolution * s.tile_height as real;
    match s.y_direction
    case BottomToTop => OverlapsUpwards(k, y_lo, y_hi, s.origin.y, height)
    case TopToBottom => OverlapsDownwards(k, y_lo, y_hi, s.origin.y, height)
  }

  /** The reference definition of a needed tile: a tile of the level that, on each axis, starts
      before the clamped upper bound and ends after the clamped lower bound. When neither pair of
      clamped bounds crosses, this is the tile's open interior meeting the closed clamped box
      (`CoverMeetsClampedBox`). */
  ghost predicate TileMeetsBox(s: TileSchema, level: TileLevel, bbox: Envelope, t: TileIndex)
  {
    t.z == level.z_index && ColumnMeetsBox(s, level, bbox, t.x) && RowMeetsBox(s, level, bbox, t.y)
  }

  /** A column lies in the level's column range exactly when it passes the overlap test against
      the clamped x bounds. */
  lemma ColumnsMeetBox(s: TileSchema, bbox: Envelope, level: TileLevel, k: int)
    requires s.tile_width > 0 && s.tile_height > 0 && level.resolution > 0.0
    ensures var r := Ranges(s, bbox, level); r.x_min <= k < r.x_max <==> ColumnMeetsBox(s, level, bbox, k)
  {
    var width := TileWidth(s, level);
    var x_lo, x_hi := MaxReal(bbox.x_min, s.envelope.x_min), MinReal(bbox.x_max, s.envelope.x_max);
    var r := Ranges(s, bbox, level);
    assert r.x_min == StartTile(x_lo - s.origin.x, width);
    assert r.x_max == EndTile(x_hi - s.origin.x, width);
    AxisMeets(x_lo, x_hi, s.origin.x, width, k);
  }

  /** A row lies in the level's row range exactly when it passes the overlap test against the
      clamped y bounds, rows being counted in the scheme's direction. */
  lemma RowsMeetBox(s: TileSchema, bbox: Envelope, level: TileLevel, k: int)
    requires s.tile_width > 0 && s.tile_height > 0 && level.resolution > 0.0
    ensures var r := Ranges(s, bbox, level); r.y_min <= k < r.y_max <==> RowMeetsBox(s, level, bbox, k)
  {
    match s.y_direction
    case BottomToTop => RowsMeetBoxUpwards(s, bbox, level, k);
    case TopToBottom => RowsMeetBoxDownwards(s, bbox, level, k);
  }

  lemma RowsMeetBoxUpwards(s: TileSchema, bbox: Envelope, level: TileLevel, k: int)
    requires s.tile_width > 0 && s.tile_height > 0 && level.resolution > 0.0
    requires s.y_direction == BottomToTop
    ensures var r := Ranges(s, bbox, level); r.y_min <= k < r.y_max <==> RowMeetsBox(s, level, bbox, k)
  {
    var height := TileHeight(s, level);
    var y_lo, y_hi := MaxReal(bbox.y_min, s.envelope.y_min), MinReal(bbox.y_max, s.envelope.y_max);
    var r := Ranges(s, bbox, level);
    assert RowMeetsBox(s, level, bbox, k) == OverlapsUpwards(k, y_lo, y_hi, s.origin.y, height);
    assert r.y_min == StartTile(y_lo - s.origin.y, height);
    assert r.y_max == EndTile(y_hi - s.origin.y, height);
    AxisMeets(y_lo, y_hi, s.origin.y, height, k);
  }

  lemma RowsMeetBoxDownwards(s: TileSchema, bbox: Envelope, level: TileLevel, k: int)
    requires s.tile_width > 0 && s.tile_height > 0 && level.resolution > 0.0
    requires s.y_direction == TopToBottom
    ensures var r := Ranges(s, bbox, level); r.y_min <= k < r.y_max <==> RowMeetsBox(s, level, bbox, k)
  {
    var height := TileHeight(s, level);
    var y_lo, y_hi := MaxReal(bbox.y_min, s.envelope.y_min), MinReal(bbox.y_max, s.envelope.y_max);
    var r := Ranges(s, bbox, level);
    assert RowMeetsBox(s, level, bbox, k) == OverlapsDownwards(k, y_lo, y_hi, s.origin.y, height);
    assert r.y_min == StartTile(s.origin.y - y_hi, height);
    assert r.y_max == EndTile(s.origin.y - y_lo, height);
    AxisMeetsDownwards(y_lo, y_hi, s.origin.y, height, k);
  }

  /** `get_indices` returns exactly the tiles of the selected level that pass the overlap test
      against the clamped bounds on both axes, in both directions of the equivalence. */
  lemma CoverIsExact(s: TileSchema, bbox: Envelope, resolution: real, t: TileIndex)
    requires ValidSchema(s)
    ensures t in Cover(s, bbox, resolution) <==> TileMeetsBox(s, SelectedLevel(s, resolution), bbox, t)
  {
    var level := SelectedLevel(s, resolution);
    var r := Ranges(s, bbox, level);
    assert Cover(s, bbox, resolution) == Grid(r, r.x_max, level.z_index);
    GridMembers(r, r.x_max, level.z_index);
    ColumnsMeetBox(s, bbox, level, t.x);
    RowsMeetBox(s, bbox, level, t.y);
  }

  /** Clamping is built in: a box and its intersection with the envelope give the same tiles. */
  /** The point `p` lies in the closed interval `lo..hi` and in the open interval `a..a+size`. */
  ghost predicate MeetsAt(p: real, a: real, size: real, lo: real, hi: real)
  {
    lo <= p <= hi && a < p < a + size
  }

  /** For bounds that do not cross, the overlap test is the open interval `a..a+size` meeting the
      closed interval `lo..hi`; the witness is the midpoint of their intersection. */
  lemma OverlapIsMeeting(a: real, size: real, lo: real, hi: real)
    requires size > 0.0 && lo <= hi
    ensures (a < hi && lo < a + size) <==> exists p :: MeetsAt(p, a, size, lo, hi)
  {
    if a < hi && lo < a + size {
      var p := (MaxReal(a, lo) + MinReal(a + size, hi)) / 2.0;
      assert MeetsAt(p, a, size, lo, hi);
    }
  }

  /** The world x at which column `k` starts. */
  function ColumnStart(s: TileSchema, level: TileLevel, k: int): real
  {
    s.origin.x + k as real * (level.resolution * s.tile_width as real)
  }

  /** The world y at which row `k` starts, in the scheme's direction. */
  function RowStart(s: TileSchema, level: TileLevel, k: int): real
  {
    var h := level.resolution * s.tile_height as real;
    match s.y_direction
    case BottomToTop => s.origin.y + k as real * h
    case TopToBottom => s.origin.y - (k + 1) as real * h
  }

  /** The x coordinate `x` lies inside column `k` and inside the clamped x bounds. */
  ghost predicate ColumnMeetsAt(s: TileSchema, level: TileLevel, bbox: Envelope, k: int, x: real)
  {
    MeetsAt(x, ColumnStart(s, level, k), level.resolution * s.tile_width as real,
            MaxReal(bbox.x_min, s.envelope.x_min), MinReal(bbox.x_max, s.envelope.x_max))
  }

  /** The y coordinate `y` lies inside row `k` and inside the clamped y bounds. */
  ghost predicate RowMeetsAt(s: TileSchema, level: TileLevel, bbox: Envelope, k: int, y: real)
  {
    MeetsAt(y, RowStart(s, level, k), level.resolution * s.tile_height as real,
            MaxReal(bbox.y_min, s.envelope.y_min), MinReal(bbox.y_max, s.envelope.y_max))
  }

  /** With uncrossed clamped x bounds, a column passes the overlap test exactly when its open
      interior meets the closed clamped x interval. */
  lemma ColumnInteriorMeetsBox(s: TileSchema, level: TileLevel, bbox: Envelope, k: int)
    requires s.tile_width > 0 && level.resolution > 0.0
    requires MaxReal(bbox.x_min, s.envelope.x_min) <= MinReal(bbox.x_max, s.envelope.x_max)
    ensures ColumnMeetsBox(s, level, bbox, k) <==> exists x :: ColumnMeetsAt(s, level, bbox, k, x)
  {
    var w := level.resolution * s.tile_width as real;
    var lo, hi := MaxReal(bbox.x_min, s.envelope.x_min), MinReal(bbox.x_max, s.envelope.x_max);
    assert s.origin.x + (k + 1) as real * w == ColumnStart(s, level, k) + w;
    OverlapIsMeeting(ColumnStart(s, level, k), w, lo, hi);
    if ColumnMeetsBox(s, level, bbox, k) {
      var x :| MeetsAt(x, ColumnStart(s, level, k), w, lo, hi);
      assert ColumnMeetsAt(s, level, bbox, k, x);
    }
  }

  /** With uncrossed clamped y bounds, a row passes the overlap test exactly when its open
      interior meets the closed clamped y interval, in either direction. */
  lemma RowInteriorMeetsBox(s: TileSchema, level: TileLevel, bbox: Envelope, k: int)
    requires s.tile_height > 0 && level.resolution > 0.0
    requires MaxReal(bbox.y_min, s.envelope.y_min) <= MinReal(bbox.y_max, s.envelope.y_max)
    ensures RowMeetsBox(s, level, bbox, k) <==> exists y :: RowMeetsAt(s, level, bbox, k, y)
  {
    var h := level.resolution * s.tile_height as real;
    var lo, hi := MaxReal(bbox.y_min, s.envelope.y_min), MinReal(bbox.y_max, s.envelope.y_max);
    if s.y_direction == BottomToTop {
      assert s.origin.y + (k + 1) as real * h == RowStart(s, level, k) + h;
    } else {
      assert s.origin.y - k as real * h == RowStart(s, level, k) + h;
    }
    OverlapIsMeeting(RowStart(s, level, k), h, lo, hi);
    if RowMeetsBox(s, level, bbox, k) {
      var y :| MeetsAt(y, RowStart(s, level, k), h, lo, hi);
      assert RowMeetsAt(s, level, bbox, k, y);
    }
  }

  /** When the box meets the envelope (neither pair of clamped bounds crosses), `get_indices`
      returns exactly the tiles of the selected level whose open interior meets the closed
      clamped box: none is missing and none is superfluous. */
  lemma CoverMeetsClampedBox(s: TileSchema, bbox: Envelope, resolution: real, t: TileIndex)
    requires ValidSchema(s)
    requires MaxReal(bbox.x_min, s.envelope.x_min) <= MinReal(bbox.x_max, s.envelope.x_max)
    requires MaxReal(bbox.y_min, s.envelope.y_min) <= MinReal(bbox.y_max, s.envelope.y_max)
    ensures var level := SelectedLevel(s, resolution);
            t in Cover(s, bbox, resolution)
            <==> && t.z == level.z_index
                 && (exists x :: ColumnMeetsAt(s, level, bbox, t.x, x))
                 && (exists y :: RowMeetsAt(s, level, bbox, t.y, y))
  {
    var level := SelectedLevel(s, resolution);
    SelectedLevelIsALevel(s, resolution);
    CoverIsExact(s, bbox, resolution, t);
    ColumnInteriorMeetsBox(s, level, bbox, t.x);
    RowInteriorMeetsBox(s, level, bbox, t.y);
  }

  lemma CoverClampsToEnvelope(s: TileSchema, bbox: Envelope, resolution: real)
    requires ValidSchema(s)
    ensures var e := s.envelope;
            Cover(s, bbox, resolution)
            == Cover(s, Envelope(MaxReal(bbox.x_min, e.x_min), MaxReal(bbox.y_min, e.y_min),
                                 MinReal(bbox.x_max, e.x_max), MinReal(bbox.y_max, e.y_max)), resolution)
  {
  }

  /** An oversized box gives the tiles of the envelope itself. */
  lemma CoverOfOversizedBox(s: TileSchema, bbox: Envelope, resolution: real)
    requires ValidSchema(s)
    requires bbox.x_min <= s.envelope.x_min && bbox.y_min <= s.envelope.y_min
    requires bbox.x_max >= s.envelope.x_max && bbox.y_max >= s.envelope.y_max
    ensures Cover(s, bbox, resolution) == Cover(s, s.envelope, resolution)
  {
  }

  /** Distance `d` from the origin is a whole number of tiles of size `size`. */
  predicate OnGridLine(d: real, size: real)
    requires size > 0.0
  {
    Floor(d / size) as real == d / size
  }

  /** The envelope's edges lie on tile boundaries of the level. */
  predicate EnvelopeOnGrid(s: TileSchema, level: TileLevel)
    requires s.tile_width > 0 && s.tile_height > 0 && level.resolution > 0.0
  {
    var width := TileWidth(s, level);
    var height := TileHeight(s, level);
    && OnGridLine(s.envelope.x_min - s.origin.x, width)
    && OnGridLine(s.envelope.x_max - s.origin.x, width)
    && match s.y_direction
       case BottomToTop =>
         OnGridLine(s.envelope.y_min - s.origin.y, height) && OnGridLine(s.envelope.y_max - s.origin.y, height)
       case TopToBottom =>
         OnGridLine(s.origin.y - s.envelope.y_min, height) && OnGridLine(s.origin.y - s.envelope.y_max, height)
  }

  predicate Disjoint(bbox: Envelope, e: Envelope)
  {
    bbox.x_max <= e.x_min || bbox.x_min >= e.x_max || bbox.y_max <= e.y_min || bbox.y_min >= e.y_max
  }

  /** When the clamped interval is empty or inverted and its nearer bound lies on a grid line,
      the tile range is empty. */
  lemma SpanEmptyAtGridLine(lo: real, hi: real, size: real, edge: real)
    requires size > 0.0
    requires hi <= edge <= lo
    requires OnGridLine(edge, size)
    ensures EndTile(hi, size) <= StartTile(lo, size)
  {
    var m := Floor(edge / size);
    assert hi / size <= m as real by {
      assert hi / size <= edge / size;
    }
    assert m as real <= lo / size by {
      assert edge / size <= lo / size;
    }
  }

  /** An interval `b_min..b_max` disjoint from the on-grid interval `e_min..e_max` clamps to an
      empty tile span. */
  lemma ClampedSpanEmpty(b_min: real, b_max: real, e_min: real, e_max: real, origin: real, size: real)
    requires size > 0.0
    requires OnGridLine(e_min - origin, size) && OnGridLine(e_max - origin, size)
    requires b_max <= e_min || b_min >= e_max
    ensures EndTile(MinReal(b_max, e_max) - origin, size) <= StartTile(MaxReal(b_min, e_min) - origin, size)
  {
    var lo, hi := MaxReal(b_min, e_min) - origin, MinReal(b_max, e_max) - origin;
    if b_max <= e_min {
      SpanEmptyAtGridLine(lo, hi, size, e_min - origin);
    } else {
      SpanEmptyAtGridLine(lo, hi, size, e_max - origin);
    }
  }

  /** The same for rows counted downwards from `origin`. */
  lemma ClampedSpanEmptyDownwards(b_min: real, b_max: real, e_min: real, e_max: real, origin: real, size: real)
    requires size > 0.0
    requires OnGridLine(origin - e_min, size) && OnGridLine(origin - e_max, size)
    requires b_max <= e_min || b_min >= e_max
    ensures EndTile(origin - MaxReal(b_min, e_min), size) <= StartTile(origin - MinReal(b_max, e_max), size)
  {
    var lo, hi := origin - MinReal(b_max, e_max), origin - MaxReal(b_min, e_min);
    if b_max <= e_min {
      SpanEmptyAtGridLine(lo, hi, size, origin - e_min);
    } else {
      SpanEmptyAtGridLine(lo, hi, size, origin - e_max);
    }
  }

  /** For a box disjoint from an on-grid envelope, one of the two tile ranges is empty. */
  lemma RangesOfDisjointBox(s: TileSchema, bbox: Envelope, level: TileLevel)
    requires s.tile_width > 0 && s.tile_height > 0 && level.resolution > 0.0
    requires EnvelopeOnGrid(s, level)
    requires Disjoint(bbox, s.envelope)
    ensures var r := Ranges(s, bbox, level); r.x_max <= r.x_min || r.y_max <= r.y_min
  {
    var width := TileWidth(s, level);
    var height := TileHeight(s, level);
    var e := s.envelope;
    var r := Ranges(s, bbox, level);
    assert r.x_min == StartTile(MaxReal(bbox.x_min, e.x_min) - s.origin.x, width);
    assert r.x_max == EndTile(MinReal(bbox.x_max, e.x_max) - s.origin.x, width);
    if bbox.x_max <= e.x_min || bbox.x_min >= e.x_max {
      ClampedSpanEmpty(bbox.x_min, bbox.x_max, e.x_min, e.x_max, s.origin.x, width);
    } else {
      match s.y_direction
      case BottomToTop =>
        assert r.y_min == StartTile(MaxReal(bbox.y_min, e.y_min) - s.origin.y, height);
        assert r.y_max == EndTile(MinReal(bbox.y_max, e.y_max) - s.origin.y, height);
        ClampedSpanEmpty(bbox.y_min, bbox.y_max, e.y_min, e.y_max, s.origin.y, height);
      case TopToBottom =>
        assert r.y_min == StartTile(s.origin.y - MinReal(bbox.y_max, e.y_max), height);
        assert r.y_max == EndTile(s.origin.y - MaxReal(bbox.y_min, e.y_min), height);
        ClampedSpanEmptyDownwards(bbox.y_min, bbox.y_max, e.y_min, e.y_max, s.origin.y, height);
    }
  }

  /** A box disjoint from the envelope yields no tiles, provided the envelope's edges lie on the
      selected level's tile boundaries (as in the default and in the test schemas). */
  lemma CoverOfDisjointBoxIsEmpty(s: TileSchema, bbox: Envelope, resolution: real)
    requires ValidSchema(s)
    requires EnvelopeOnGrid(s, SelectedLevel(s, resolution))
    requires Disjoint(bbox, s.envelope)
    ensures Cover(s, bbox, resolution) == []
  {
    RangesOfDisjointBox(s, bbox, SelectedLevel(s, resolution));
    CoverShape(s, bbox, resolution);
  }

  /** Without the grid condition a disjoint box can still yield a tile: envelope `3..10` on a
      10-unit grid and a box ending at `x = 1` share column 0. */
  lemma DisjointBoxOffGridExample()
    ensures var s := TileSchema(10, 10, Point(0.0, 0.0), Envelope(3.0, 0.0, 10.0, 10.0),
                                BottomToTop, [TileLevel(0, 1.0)]);
            Disjoint(Envelope(-5.0, 0.0, 1.0, 10.0), s.envelope)
            && Cover(s, Envelope(-5.0, 0.0, 1.0, 10.0), 1.0) == [TileIndex(0, 0, 0)]
  {
    var s := TileSchema(10, 10, Point(0.0, 0.0), Envelope(3.0, 0.0, 10.0, 10.0),
                        BottomToTop, [TileLevel(0, 1.0)]);
    var r := Ranges(s, Envelope(-5.0, 0.0, 1.0, 10.0), TileLevel(0, 1.0));
    assert r == TileRange(0, 1, 0, 1);
    assert Column(0, 0, 1, 0) == [TileIndex(0, 0, 0)];
    assert Grid(r, 0, 0) == [];
  }

  // ---------------------------------------------------------------------------------------
  // The default Web Mercator scheme

  /** Resolution of level 0 of the default scheme (metres per pixel). */
  const DEFAULT_TOP_RESOLUTION: real := 156543.03392800014
  /** Half the extent of the default world envelope. */
  const WORLD_HALF_EXTENT: real := 20037508.342787
  const DEFAULT_LEVEL_COUNT: nat := 18

  /** Resolution of level `z` of the default scheme: each level halves the previous one. */
  function DefaultResolution(z: nat): real
  {
    if z == 0 then DEFAULT_TOP_RESOLUTION else DefaultResolution(z - 1) / 2.0
  }

  function DefaultLevels(): seq<TileLevel>
  {
    seq(DEFAULT_LEVEL_COUNT, z requires 0 <= z => TileLevel(z, DefaultResolution(z)))
  }

  function DefaultTileSchema(): TileSchema
  {
    TileSchema(256, 256, Point(-WORLD_HALF_EXTENT, WORLD_HALF_EXTENT),
               Envelope(-WORLD_HALF_EXTENT, -WORLD_HALF_EXTENT, WORLD_HALF_EXTENT, WORLD_HALF_EXTENT),
               TopToBottom, DefaultLevels())
  }

  lemma {:induction false} DefaultResolutionPositive(z: nat)
    ensures DefaultResolution(z) > 0.0
  {
    if z > 0 {
      DefaultResolutionPositive(z - 1);
    }
  }

  lemma {:induction false} DefaultResolutionDecreasing(i: nat, j: nat)
    requires i < j
    ensures DefaultResolution(i) > DefaultResolution(j)
    decreases j - i
  {
    DefaultResolutionPositive(j - 1);
    if i < j - 1 {
      DefaultResolutionDecreasing(i, j - 1);
    }
  }

  /** The default scheme: 18 levels with z 0..17, each at half the previous resolution and
      strictly coarsest-first, 256 x 256 pixel tiles, rows counted downwards from the
      top-left corner of the world envelope. */
  lemma DefaultSchemaFacts()
    ensures var s := DefaultTileSchema();
            && ValidSchema(s)
            && |s.levels| == 18
            && StrictlyCoarsestFirst(s.levels)
            && (forall z :: 0 <= z < 18 ==> s.levels[z].z_index == z)
            && (forall z :: 1 <= z < 18 ==> s.levels[z].resolution == s.levels[z - 1].resolution / 2.0)
            && s.levels[0].resolution == DEFAULT_TOP_RESOLUTION
            && s.tile_width == 256 && s.tile_height == 256
            && s.y_direction == TopToBottom
            && s.origin == Point(s.envelope.x_min, s.envelope.y_max)
  {
    var s := DefaultTileSchema();
    forall z | 0 <= z < 18 ensures s.levels[z].resolution > 0.0 {
      DefaultResolutionPositive(z);
    }
    forall i, j | 0 <= i < j < 18 ensures s.levels[i].resolution > s.levels[j].resolution {
      DefaultResolutionDecreasing(i, j);
    }
  }

  /** `TileSchema::default`: level 0, then 17 more levels pushed in a loop, each halving the
      previous resolution, sorted into a `SortedVec`. */
  method DefaultSchema() returns (s: TileSchema)
    ensures s == DefaultTileSchema()
  {
    var levels := [TileLevel(0, DEFAULT_TOP_RESOLUTION)];
    for i := 1 to DEFAULT_LEVEL_COUNT
      invariant |levels| == i
      invariant forall z :: 0 <= z < i ==> levels[z] == TileLevel(z, DefaultResolution(z))
    {
      levels := levels + [TileLevel(i, levels[i - 1].resolution / 2.0)];
    }
    assert levels == DefaultLevels();
    DefaultSchemaFacts();
    SortStrictlySortedIsIdentity(levels);
    s := TileSchema(256, 256, Point(-WORLD_HALF_EXTENT, WORLD_HALF_EXTENT),
                    Envelope(-WORLD_HALF_EXTENT, -WORLD_HALF_EXTENT, WORLD_HALF_EXTENT, WORLD_HALF_EXTENT),
                    TopToBottom, SortLevels(levels));
  }

  /** Test `select_level`, coarse requests: on the default scheme, requests at level 0's
      resolution, that resolution plus or minus one, and twice it select level 0; half of it and
      two thirds of it select level 1. */
  lemma DefaultSelectLevelExamples()
    ensures var levels := DefaultTileSchema().levels;
            var r0 := levels[0].resolution;
            && SelectedIndex(levels, r0) == 0
            && SelectedIndex(levels, r0 + 1.0) == 0
            && SelectedIndex(levels, r0 - 1.0) == 0
            && SelectedIndex(levels, r0 * 2.0) == 0
            && SelectedIndex(levels, r0 / 2.0) == 1
            && SelectedIndex(levels, r0 / 1.5) == 1
  {
    DefaultSchemaFacts();
  }

  /** Test `select_level`, fine requests: requests finer than the last level of the default
      scheme select the last level. */
  lemma DefaultSelectFinestExamples()
    ensures var levels := DefaultTileSchema().levels;
            var last := levels[|levels| - 1].resolution;
            && SelectedIndex(levels, last / 2.0) == |levels| - 1
            && SelectedIndex(levels, last / 4.0) == |levels| - 1
  {
    var levels := DefaultTileSchema().levels;
    DefaultSchemaFacts();
    var last := levels[17].resolution;
    forall z | 0 <= z < 18 ensures !Accepts(levels[z], last / 2.0) && !Accepts(levels[z], last / 4.0) {
      if z < 17 {
        DefaultResolutionDecreasing(z, 17);
      }
    }
  }

  // ---------------------------------------------------------------------------------------
  // The unit test schema

  /** `get_simple_schema` from the tests: 10 x 10 tiles, origin (0, 0), envelope (0, 0)-(10, 10),
      rows counted upwards, levels of resolution 1, 0.5 and 0.25 at z 0, 1 and 2. The source passes
      the levels through `SortedVec::from`; `SimpleSchemaLevelsSorted` shows that sorting leaves
      them as written. */
  function SimpleSchema(): TileSchema
  {
    TileSchema(10, 10, Point(0.0, 0.0), Envelope(0.0, 0.0, 10.0, 10.0), BottomToTop,
               [TileLevel(0, 1.0), TileLevel(1, 0.5), TileLevel(2, 0.25)])
  }

  lemma SimpleSchemaLevelsSorted()
    ensures SortLevels(SimpleSchema().levels) == SimpleSchema().levels
  {
    SortThreeSortedLevels(TileLevel(0, 1.0), TileLevel(1, 0.5), TileLevel(2, 0.25));
  }

  lemma SortThreeSortedLevels(a: TileLevel, b: TileLevel, c: TileLevel)
    requires a.resolution > b.resolution > c.resolution
    ensures SortLevels([a, b, c]) == [a, b, c]
  {
    SortStrictlySortedIsIdentity([a, b, c]);
  }

  /** Every index of `tiles` has level `z` and lies in the given closed column and row bounds. */
  ghost predicate AllWithin(tiles: seq<TileIndex>, z: int, x_lo: int, x_hi: int, y_lo: int, y_hi: int)
  {
    forall t :: t in tiles ==> t.z == z && x_lo <= t.x <= x_hi && y_lo <= t.y <= y_hi
  }

  /** The shape of the product once the selected level and its ranges are known. */
  lemma CoverAtLevel(s: TileSchema, bbox: Envelope, resolution: real, i: nat, r: TileRange)
    requires ValidSchema(s) && i < |s.levels|
    requires SelectedIndex(s.levels, resolution) == i
    requires Ranges(s, bbox, s.levels[i]) == r
    ensures |Cover(s, bbox, resolution)| == Span(r.x_min, r.x_max) * Span(r.y_min, r.y_max)
    ensures AllWithin(Cover(s, bbox, resolution), s.levels[i].z_index, r.x_min, r.x_max - 1, r.y_min, r.y_max - 1)
  {
    CoverShape(s, bbox, resolution);
  }

  /** Test `get_indices_simple_schema`, resolution 1: the whole envelope is one tile. */
  lemma WholeEnvelopeOneTile()
    ensures Cover(SimpleSchema(), Envelope(0.0, 0.0, 10.0, 10.0), 1.0) == [TileIndex(0, 0, 0)]
  {
    var s, e := SimpleSchema(), Envelope(0.0, 0.0, 10.0, 10.0);
    assert SelectedIndex(s.levels, 1.0) == 0;
    assert StartTile(0.0, 10.0) == 0 && EndTile(10.0, 10.0) == 1;
    assert Ranges(s, e, s.levels[0]) == TileRange(0, 1, 0, 1);
    CoverAtLevel(s, e, 1.0, 0, TileRange(0, 1, 0, 1));
    var c := Cover(s, e, 1.0);
    assert c[0] in c;
  }

  /** Test `get_indices_simple_schema`, resolution 0.5: the whole envelope is 2 x 2 tiles. */
  lemma WholeEnvelopeFourTiles()
    ensures var c := Cover(SimpleSchema(), Envelope(0.0, 0.0, 10.0, 10.0), 0.5);
            |c| == 4 && AllWithin(c, 1, 0, 1, 0, 1)
  {
    var s, e := SimpleSchema(), Envelope(0.0, 0.0, 10.0, 10.0);
    assert SelectedIndex(s.levels, 0.5) == 1;
    assert StartTile(0.0, 5.0) == 0 && EndTile(10.0, 5.0) == 2;
    assert Ranges(s, e, s.levels[1]) == TileRange(0, 2, 0, 2);
    CoverAtLevel(s, e, 0.5, 1, TileRange(0, 2, 0, 2));
  }

  /** Test `get_indices_simple_schema`, resolution 0.25: the whole envelope is 4 x 4 tiles. */
  lemma WholeEnvelopeSixteenTiles()
    ensures var c := Cover(SimpleSchema(), Envelope(0.0, 0.0, 10.0, 10.0), 0.25);
            |c| == 16 && AllWithin(c, 2, 0, 3, 0, 3)
  {
    var s, e := SimpleSchema(), Envelope(0.0, 0.0, 10.0, 10.0);
    assert SelectedIndex(s.levels, 0.25) == 2;
    WholeEnvelopeFinestRanges();
    CoverAtLevel(s, e, 0.25, 2, TileRange(0, 4, 0, 4));
  }

  lemma WholeEnvelopeFinestRanges()
    ensures Ranges(SimpleSchema(), Envelope(0.0, 0.0, 10.0, 10.0), TileLevel(2, 0.25)) == TileRange(0, 4, 0, 4)
  {
    assert StartTile(0.0, 2.5) == 0 && EndTile(10.0, 2.5) == 4;
  }

  /** Test `get_indices_partial_intersection`: the box (2, 2)-(8, 4) at resolution 0.5 meets
      two tiles of one row. */
  lemma PartialIntersectionExample()
    ensures var c := Cover(SimpleSchema(), Envelope(2.0, 2.0, 8.0, 4.0), 0.5);
            |c| == 2 && AllWithin(c, 1, 0, 1, 0, 0)
  {
    var s, e := SimpleSchema(), Envelope(2.0, 2.0, 8.0, 4.0);
    assert SelectedIndex(s.levels, 0.5) == 1;
    assert StartTile(2.0, 5.0) == 0 && EndTile(8.0, 5.0) == 2 && EndTile(4.0, 5.0) == 1;
    assert Ranges(s, e, s.levels[1]) == TileRange(0, 2, 0, 1);
    CoverAtLevel(s, e, 0.5, 1, TileRange(0, 2, 0, 1));
  }

  /** Test `get_indices_large_bbox`: a box larger than the envelope is clamped to it. */
  lemma LargeBoxExample()
    ensures var c := Cover(SimpleSchema(), Envelope(-10.0, -10.0, 20.0, 20.0), 0.5);
            |c| == 4 && AllWithin(c, 1, 0, 1, 0, 1)
  {
    var s, e := SimpleSchema(), Envelope(-10.0, -10.0, 20.0, 20.0);
    assert SelectedIndex(s.levels, 0.5) == 1;
    assert StartTile(0.0, 5.0) == 0 && EndTile(10.0, 5.0) == 2;
    assert Ranges(s, e, s.levels[1]) == TileRange(0, 2, 0, 2);
    CoverAtLevel(s, e, 0.5, 1, TileRange(0, 2, 0, 2));
  }

  /** Test `get_indices_high_resolution`: a request finer than every level selects the last one. */
  lemma HighResolutionExample()
    ensures var c := Cover(SimpleSchema(), Envelope(2.0, 2.0, 3.0, 3.0), 0.125);
            |c| == 4 && AllWithin(c, 2, 0, 1, 0, 1)
  {
    var s, e := SimpleSchema(), Envelope(2.0, 2.0, 3.0, 3.0);
    assert SelectedIndex(s.levels, 0.125) == 2;
    assert StartTile(2.0, 2.5) == 0 && EndTile(3.0, 2.5) == 2;
    assert Ranges(s, e, s.levels[2]) == TileRange(0, 2, 0, 2);
    CoverAtLevel(s, e, 0.125, 2, TileRange(0, 2, 0, 2));
  }

  /** Test `get_indices_no_intersection`: a box outside the envelope needs no tile. */
  lemma NoIntersectionExample()
    ensures Cover(SimpleSchema(), Envelope(-10.0, -10.0, -5.0, -5.0), 0.5) == []
  {
    var s, e := SimpleSchema(), Envelope(-10.0, -10.0, -5.0, -5.0);
    assert SelectedIndex(s.levels, 0.5) == 1;
    assert StartTile(0.0, 5.0) == 0 && EndTile(-5.0, 5.0) == -1;
    assert Ranges(s, e, s.levels[1]) == TileRange(0, -1, 0, -1);
    CoverAtLevel(s, e, 0.5, 1, TileRange(0, -1, 0, -1));
  }

  /** Test `get_indices_top_to_bottom`: with the origin moved to (0, 10) and rows counted
      downwards, the box (2, 2)-(3, 3) at resolution 0.125 lies in columns 0..1 and rows 2..3. */
  lemma TopToBottomExample()
    ensures var s := SimpleSchema().(origin := Point(0.0, 10.0), y_direction := TopToBottom);
            var c := Cover(s, Envelope(2.0, 2.0, 3.0, 3.0), 0.125);
            |c| == 4 && AllWithin(c, 2, 0, 1, 2, 3)
  {
    var s := SimpleSchema().(origin := Point(0.0, 10.0), y_direction := TopToBottom);
    var e := Envelope(2.0, 2.0, 3.0, 3.0);
    assert SelectedIndex(s.levels, 0.125) == 2;
    assert StartTile(2.0, 2.5) == 0 && EndTile(3.0, 2.5) == 2;
    assert StartTile(7.0, 2.5) == 2 && EndTile(8.0, 2.5) == 4;
    assert Ranges(s, e, s.levels[2]) == TileRange(0, 2, 2, 4);
    CoverAtLevel(s, e, 0.125, 2, TileRange(0, 2, 2, 4));
  }

  /** Test `get_indices_different_tile_size`, resolution 1: 5 x 3 tiles, 2 columns of 3 rows. */
  lemma OtherTileSizeCoarse()
    ensures var s := SimpleSchema().(tile_width := 5, tile_height := 3);
            var c := Cover(s, Envelope(2.0, 2.0, 7.0, 7.0), 1.0);
            |c| == 6 && AllWithin(c, 0, 0, 1, 0, 2)
  {
    var s := SimpleSchema().(tile_width := 5, tile_height := 3);
    var e := Envelope(2.0, 2.0, 7.0, 7.0);
    assert SelectedIndex(s.levels, 1.0) == 0;
    assert StartTile(2.0, 5.0) == 0 && EndTile(7.0, 5.0) == 2;
    assert StartTile(2.0, 3.0) == 0 && EndTile(7.0, 3.0) == 3;
    assert Ranges(s, e, s.levels[0]) == TileRange(0, 2, 0, 3);
    CoverAtLevel(s, e, 1.0, 0, TileRange(0, 2, 0, 3));
  }

  /** Test `get_indices_different_tile_size`, resolution 0.5: 3 columns of 4 rows. */
  lemma OtherTileSizeFine()
    ensures var s := SimpleSchema().(tile_width := 5, tile_height := 3);
            var c := Cover(s, Envelope(2.0, 2.0, 7.0, 7.0), 0.5);
            |c| == 12 && AllWithin(c, 1, 0, 2, 1, 4)
  {
    var s := SimpleSchema().(tile_width := 5, tile_height := 3);
    var e := Envelope(2.0, 2.0, 7.0, 7.0);
    assert SelectedIndex(s.levels, 0.5) == 1;
    assert StartTile(2.0, 2.5) == 0 && EndTile(7.0, 2.5) == 3;
    assert StartTile(2.0, 1.5) == 1 && EndTile(7.0, 1.5) == 5;
    assert Ranges(s, e, s.levels[1]) == TileRange(0, 3, 1, 5);
    CoverAtLevel(s, e, 0.5, 1, TileRange(0, 3, 1, 5));
  }

  /** Test `get_indices_moved_origin`: origin at (5, 5). */
  lemma MovedOriginExample()
    ensures var s := SimpleSchema().(origin := Point(5.0, 5.0));
            var c := Cover(s, Envelope(2.5, 2.5, 7.5, 7.5), 0.25);
            |c| == 4 && AllWithin(c, 2, -1, 0, -1, 0)
  {
    var s := SimpleSchema().(origin := Point(5.0, 5.0));
    var e := Envelope(2.5, 2.5, 7.5, 7.5);
    assert SelectedIndex(s.levels, 0.25) == 2;
    assert StartTile(-2.5, 2.5) == -1 && EndTile(2.5, 2.5) == 1;
    assert Ranges(s, e, s.levels[2]) == TileRange(-1, 1, -1, 1);
    CoverAtLevel(s, e, 0.25, 2, TileRange(-1, 1, -1, 1));
  }
}
