/**
 * Map loading (src/bricks.cpp, `load_map`): the map text is read one
 * character at a time; '1'..'5' places a brick of that health at the cursor,
 * '\n' moves the cursor to the start of the next row down, and any other
 * character leaves a gap. Reading the file is replaced by the text itself.
 */
module Level {
  import opened Geometry
  import opened Entities
  import opened Pools

  const BRICK_SPACING: real := 0.02
  const MAP_BEGIN: real := -1.0 + BRICK_SPACING + DEFAULT_BRICK_WIDTH / 2.0
  const MAP_TOP: real := 1.0 - BRICK_SPACING - DEFAULT_BRICK_HEIGHT / 2.0
  const COLUMN_STEP: real := DEFAULT_BRICK_WIDTH + BRICK_SPACING
  const ROW_STEP: real := DEFAULT_BRICK_HEIGHT + BRICK_SPACING

  predicate IsBrickTile(c: char) {
    '1' <= c && c as int <= '0' as int + BRICK_MAX_HEALTH
  }

  function TileHealth(c: char): (h: real)
    requires IsBrickTile(c)
    ensures 1.0 <= h <= BRICK_MAX_HEALTH as real
  {
    (c as int - '0' as int) as real
  }

  function Last(s: seq<char>): char requires s != [] { s[|s| - 1] }
  function Init(s: seq<char>): seq<char> requires s != [] { s[..|s| - 1] }

  /** Characters read since the last newline. */
  function Column(s: seq<char>): nat {
    if s == [] then 0 else if Last(s) == '\n' then 0 else Column(Init(s)) + 1
  }

  /** Newlines read so far. */
  function Row(s: seq<char>): nat {
    if s == [] then 0 else Row(Init(s)) + if Last(s) == '\n' then 1 else 0
  }

  /** The brick characters of the map, in file order. */
  function Tiles(s: seq<char>): seq<char> {
    if s == [] then [] else Tiles(Init(s)) + if IsBrickTile(Last(s)) then [Last(s)] else []
  }

  /** The brick a tile character makes at a given column and row. */
  function TileBrick(c: char, column: nat, row: nat): Brick
    requires IsBrickTile(c)
  {
    Brick(V2(MAP_BEGIN + COLUMN_STEP * column as real, MAP_TOP - ROW_STEP * row as real),
          V2(DEFAULT_BRICK_WIDTH, DEFAULT_BRICK_HEIGHT),
          TileHealth(c))
  }

  /** The bricks a map text produces, in file order. */
  function MapBricks(s: seq<char>): seq<Brick> {
    if s == [] then []
    else if IsBrickTile(Last(s)) then MapBricks(Init(s)) + [TileBrick(Last(s), Column(Init(s)), Row(Init(s)))]
    else MapBricks(Init(s))
  }

  /** The capacity of the brick array after n pushes: 64, doubled whenever a push finds it full. */
  function CapacityFor(n: nat): nat {
    if n == 0 then MAP_INITIAL_MAX
    else var m := CapacityFor(n - 1); if n - 1 == m then 2 * m else m
  }

  predicate IsDoubledFrom64(m: nat) {
    m == MAP_INITIAL_MAX || (m > MAP_INITIAL_MAX && m % 2 == 0 && IsDoubledFrom64(m / 2))
  }

  /** One brick per brick character, in order, with that digit as its health. */
  lemma {:induction false} MapBricksAreTiles(s: seq<char>)
    ensures |MapBricks(s)| == |Tiles(s)|
    ensures forall k :: 0 <= k < |Tiles(s)| ==>
      IsBrickTile(Tiles(s)[k]) && MapBricks(s)[k].health == TileHealth(Tiles(s)[k])
  {
    if s != [] {
      MapBricksAreTiles(Init(s));
    }
  }

  lemma {:induction false} MapBricksPrefix(s: seq<char>, p: nat)
    requires p <= |s|
    ensures MapBricks(s[..p]) <= MapBricks(s)
  {
    if p < |s| {
      MapBricksPrefix(Init(s), p);
      assert Init(s)[..p] == s[..p];
    } else {
      assert s[..p] == s;
    }
  }

  /**
   * The brick made by the character at position p sits at the column and row
   * that the characters before it determine, after every brick made before it.
   */
  lemma MapBrickPlacement(s: seq<char>, p: nat)
    requires p < |s| && IsBrickTile(s[p])
    ensures |MapBricks(s[..p])| < |MapBricks(s)|
    ensures MapBricks(s)[|MapBricks(s[..p])|] == TileBrick(s[p], Column(s[..p]), Row(s[..p]))
  {
    var q := s[..p + 1];
    assert Init(q) == s[..p] && Last(q) == s[p];
    MapBricksPrefix(s, p + 1);
  }

  /** The array never overflows, and its capacity stays at 64 or under twice the count. */
  lemma {:induction false} CapacityBounds(n: nat)
    ensures n <= CapacityFor(n)
    ensures CapacityFor(n) == MAP_INITIAL_MAX || CapacityFor(n) < 2 * n
    ensures IsDoubledFrom64(CapacityFor(n))
  {
    if n > 0 {
      CapacityBounds(n - 1);
      var m := CapacityFor(n - 1);
      if n - 1 == m {
        assert (2 * m) / 2 == m;
      }
    }
  }

  /** `load_map` over the map text, with the growth step corrected (see PushAsWritten). */
  method LoadMap(text: seq<char>) returns (bricks: BrickArray)
    ensures fresh(bricks) && fresh(bricks.items) && bricks.Valid()
    ensures bricks.Live() == MapBricks(text)
    ensures bricks.max == CapacityFor(bricks.count)
  {
    bricks := new BrickArray();
    var x, y := MAP_BEGIN, MAP_TOP;
    var k := 0;
    while k < |text|
      invariant k <= |text|
      invariant fresh(bricks) && fresh(bricks.items) && bricks.Valid()
      invariant bricks.Live() == MapBricks(text[..k])
      invariant bricks.max == CapacityFor(bricks.count)
      invariant x == MAP_BEGIN + COLUMN_STEP * Column(text[..k]) as real
      invariant y == MAP_TOP - ROW_STEP * Row(text[..k]) as real
    {
      var c := text[k];
      assert Init(text[..k + 1]) == text[..k] && Last(text[..k + 1]) == c;
      if c == '\n' {
        x := MAP_BEGIN;
        y := y - ROW_STEP;
      } else if IsBrickTile(c) {
        bricks.Push(Brick(V2(x, y), V2(DEFAULT_BRICK_WIDTH, DEFAULT_BRICK_HEIGHT), TileHealth(c)));
        x := x + COLUMN_STEP;
      } else {
        x := x + COLUMN_STEP;
      }
      k := k + 1;
    }
    assert text[..k] == text;
  }

  /**
   * What the growth step at lines 663-674 does as written, tracked on the
   * sizes involved: `max` doubles and a larger array is filled, but `items`
   * keeps pointing at the old array (`storage`), which the copy loop deletes
   * once per copied brick. The brick is then written at index `count`.
   */
  datatype StorageState = StorageState(max: nat, count: nat, storage: nat, deletes: nat)

  function PushAsWritten(s: StorageState): StorageState {
    if s.count == s.max then s.(max := 2 * s.max, count := s.count + 1, deletes := s.deletes + s.count)
    else s.(count := s.count + 1)
  }

  /** Whether `items[count]` written by a push lies inside the array `items` points to. */
  predicate PushWritesInBounds(s: StorageState) {
    s.count < s.storage
  }

  /**
   * The 65th brick: the array has 64 slots, the push writes slot 64, the old
   * array has been deleted 64 times, and `max` now claims 128 slots.
   */
  lemma GrowAsWrittenOverflows()
    ensures var s := StorageState(64, 64, 64, 0);
      !PushWritesInBounds(s) && PushAsWritten(s).deletes == 64 &&
      PushAsWritten(s).max == 128 && PushAsWritten(s).storage == 64
  {
  }
}
