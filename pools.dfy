/**
 * Entity pools: a fixed-capacity array with a live count (balls, bullets,
 * powerups) and the growable brick array of `load_map`. Removal is the
 * source's swap-remove: the last live element is copied into the removed
 * slot and the count drops by one; the caller rewinds its loop index so that
 * the element moved into the slot is visited next.
 */
module Pools {
  import opened Entities

  /** The live contents after swap-removing slot i. */
  function SwapRemove<T>(s: seq<T>, i: nat): (r: seq<T>)
    requires i < |s|
    ensures |r| == |s| - 1
    ensures i < |r| ==> r[i] == s[|s| - 1]
    ensures forall k :: 0 <= k < |r| && k != i ==> r[k] == s[k]
  {
    s[i := s[|s| - 1]][..|s| - 1]
  }

  /** Swap-remove takes exactly the removed element out of the pool. */
  lemma SwapRemoveMultiset<T>(s: seq<T>, i: nat)
    requires i < |s|
    ensures multiset(SwapRemove(s, i)) == multiset(s) - multiset{s[i]}
  {
    var n := |s| - 1;
    var r := SwapRemove(s, i);
    if i == n {
      assert s == r + [s[n]];
    } else {
      assert s == s[..i] + [s[i]] + s[i + 1..n] + [s[n]];
      assert r == s[..i] + [s[n]] + s[i + 1..n];
    }
  }

  /** A fixed-capacity pool over an array (the arrays embedded in GameState). */
  class Pool<T(0)> {
    const items: array<T>
    var count: nat

    ghost predicate Valid()
      reads this
    {
      count <= items.Length
    }

    ghost function Live(): seq<T>
      reads this, items
      requires Valid()
    {
      items[..count]
    }

    constructor (capacity: nat)
      ensures Valid() && fresh(items) && items.Length == capacity && Live() == []
    {
      items := new T[capacity];
      count := 0;
    }

    /** `pool[count++] = x`; the callers check the capacity first. */
    method Push(x: T)
      requires Valid() && count < items.Length
      modifies this, items
      ensures Valid() && count == old(count) + 1
      ensures items[..] == old(items[..])[old(count) := x]
      ensures Live() == old(Live()) + [x]
    {
      items[count] := x;
      count := count + 1;
      assert Live() == old(Live()) + [x];
    }

    /** `pool[i] = x` on any slot; a dead slot's content does not show in Live(). */
    method Set(i: nat, x: T)
      requires Valid() && i < items.Length
      modifies items
      ensures items[..] == old(items[..])[i := x]
      ensures Live() == if i < count then old(Live())[i := x] else old(Live())
    {
      items[i] := x;
      assert i >= count ==> Live() == old(Live());
    }

    /** `pool[i--] = pool[--count]`: returns the rewound index. */
    method RemoveAt(i: nat) returns (next: int)
      requires Valid() && i < count
      modifies this, items
      ensures Valid() && count == old(count) - 1 && next == i - 1
      ensures items[..] == old(items[..])[i := old(items[count - 1])]
      ensures Live() == SwapRemove(old(Live()), i)
    {
      count := count - 1;
      items[i] := items[count];
      next := i - 1;
    }

    /** `count = n` for a smaller n: the slots past n become dead but keep their contents. */
    method Truncate(n: nat)
      requires Valid() && n <= count
      modifies this
      ensures Valid() && count == n
      ensures Live() == old(Live())[..n]
    {
      count := n;
    }
  }

  const MAP_INITIAL_MAX: nat := 64

  /**
   * The brick array of `load_map`: a heap array with a count and a capacity
   * `max` that doubles when a push finds it full.
   */
  class BrickArray {
    var items: array<Brick>
    var count: nat
    var max: nat

    ghost predicate Valid()
      reads this
    {
      0 < max && count <= max && items.Length == max
    }

    ghost function Live(): seq<Brick>
      reads this, items
      requires Valid()
    {
      items[..count]
    }

    constructor ()
      ensures Valid() && fresh(items) && max == MAP_INITIAL_MAX && Live() == []
    {
      max := MAP_INITIAL_MAX;
      count := 0;
      items := new Brick[MAP_INITIAL_MAX];
    }

    /**
     * The growth step copies the live bricks into an array twice as large and
     * makes it the storage; the source forgets that last step (see
     * Level.PushAsWritten and Level.GrowAsWrittenOverflows).
     */
    method Push(b: Brick)
      requires Valid()
      modifies this, items
      ensures Valid()
      ensures Live() == old(Live()) + [b]
      ensures max == if old(count) == old(max) then 2 * old(max) else old(max)
      ensures old(count) < old(max) ==> items == old(items)
      ensures old(count) == old(max) ==> fresh(items)
    {
      if count == max {
        max := max * 2;
        var grown := new Brick[max];
        var k := 0;
        while k < count
          invariant 0 <= k <= count <= items.Length && count <= grown.Length
          invariant items[..count] == old(Live())
          invariant count == old(count) && grown.Length == max == 2 * old(max)
          invariant grown[..k] == items[..k]
        {
          grown[k] := items[k];
          k := k + 1;
        }
        assert grown[..count] == old(Live());
        items := grown;
      }
      items[count] := b;
      count := count + 1;
      assert Live() == old(Live()) + [b];
    }

    /** An update of live brick i in place. */
    method Set(i: nat, b: Brick)
      requires Valid() && i < count
      modifies items
      ensures Live() == old(Live())[i := b]
    {
      items[i] := b;
    }

    /** Swap-remove of brick i, as at the end of `hit_brick`. */
    method RemoveAt(i: nat) returns (next: int)
      requires Valid() && i < count
      modifies this, items
      ensures Valid() && count == old(count) - 1 && next == i - 1 && max == old(max) && items == old(items)
      ensures items[..] == old(items[..])[i := old(items[count - 1])]
      ensures Live() == SwapRemove(old(Live()), i)
    {
      count := count - 1;
      items[i] := items[count];
      next := i - 1;
    }
  }
}
