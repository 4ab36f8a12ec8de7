/** `Grid2D<T>`: a flat row-major buffer of `width * height` cells addressed by `y * width + x`. */
module Grid {
  import opened Prelude

  /** A cell location `(x, y)`. */
  type Location = (nat, nat)

  /** Grid dimensions `(width, height)`. */
  type Size = (nat, nat)

  /** The linear index `y * width + x`; nothing checks that `x < width`. */
  function Index(width: nat, loc: Location): nat
  {
    loc.1 * width + loc.0
  }

  predicate InBounds(loc: Location, size: Size)
  {
    loc.0 < size.0 && loc.1 < size.1
  }

  /** `get` on the buffer's contents: the cell at the linear index, if that index is in the buffer. */
  function Lookup<T>(cells: seq<T>, width: nat, loc: Location): (r: Option<T>)
    ensures r.Some? <==> Index(width, loc) < |cells|
    ensures r.Some? ==> r.value == cells[Index(width, loc)]
  {
    var i := Index(width, loc);
    if i < |cells| then Some(cells[i]) else None
  }

  lemma IndexInBounds(loc: Location, size: Size)
    requires InBounds(loc, size)
    ensures Index(size.0, loc) < size.0 * size.1
  {
    var (x, y) := loc;
    var (w, h) := size;
    calc {
      y * w + x;
    < y * w + w;
    == (y + 1) * w;
    <= { assert y + 1 <= h; MulMonotone(y + 1, h, w); }
      h * w;
    }
  }

  lemma MulMonotone(a: nat, b: nat, c: nat)
    requires a <= b
    ensures a * c <= b * c
  {
  }

  /** Every location inside a `width * height` grid holds a cell. */
  lemma LookupInBounds<T>(cells: seq<T>, size: Size, loc: Location)
    requires |cells| == size.0 * size.1
    requires InBounds(loc, size)
    ensures Lookup(cells, size.0, loc).Some?
  {
    IndexInBounds(loc, size);
  }

  /** With no separate check of `x`, the location `(width, y)` reads the first cell of row `y + 1`. */
  lemma LookupWrapsToNextRow<T>(cells: seq<T>, width: nat, y: nat)
    ensures Lookup(cells, width, (width, y)) == Lookup(cells, width, (0, y + 1))
  {
    assert Index(width, (width, y)) == Index(width, (0, y + 1));
  }

  /** The unit test of `get`: on a 10 by 2 grid, `(9, 1)` is a cell and `(1, 9)` is not. */
  lemma LookupTest()
    ensures Lookup(seq(20, _ => 1), 10, (9, 1)) == Some(1)
    ensures Lookup(seq(20, _ => 1), 10, (1, 9)) == None
  {
  }

  /** The linear indices that `get_pair_mut` hands out, first for `loc1` and then for `loc2`, or
      `None` when either is outside the buffer or both name the same slot. */
  function PairIndices(count: nat, width: nat, loc1: Location, loc2: Location): (r: Option<(nat, nat)>)
    ensures r.Some? <==> Index(width, loc1) < count && Index(width, loc2) < count
                         && Index(width, loc1) != Index(width, loc2)
    ensures r.Some? ==> r.value == (Index(width, loc1), Index(width, loc2))
  {
    var i1 := Index(width, loc1);
    var i2 := Index(width, loc2);
    if i1 >= count || i2 >= count then None
    else if i1 < i2 then Some((i1, i2))
    else if i1 > i2 then Some((i1, i2))
    else None
  }

  class Grid2D<T> {
    const data: array<T>
    const width: nat
    const height: nat

    ghost predicate Valid()
    {
      data.Length == width * height
    }

    /** `new_with`: `width * height` cells, the i-th one made by the i-th call of the generator. */
    constructor NewWith(size: Size, generator: nat -> T)
      ensures Valid() && fresh(data)
      ensures width == size.0 && height == size.1
      ensures forall i :: 0 <= i < data.Length ==> data[i] == generator(i)
    {
      width, height := size.0, size.1;
      data := new T[size.0 * size.1]((i: nat) => generator(i));
    }

    function Get(loc: Location): (r: Option<T>)
      reads data
      ensures r == Lookup(data[..], width, loc)
    {
      var i := Index(width, loc);
      if i < data.Length then Some(data[i]) else None
    }

    function Size(): (r: Size)
      ensures Valid() ==> r.0 * r.1 == data.Length
    {
      (width, height)
    }

    function Count(): (n: nat)
      requires Valid()
      ensures n == width * height
    {
      data.Length
    }

    /** `get_pair_mut` followed by a write through its second handle: when both locations name
        distinct cells of the buffer, the cell at `loc2` becomes `update(cell1, cell2)`; otherwise
        nothing changes. The buffer is split at the larger index, so the two handles come from
        disjoint halves. */
    method ModifyPair(loc1: Location, loc2: Location, update: (T, T) -> T)
      modifies data
      ensures match PairIndices(data.Length, width, loc1, loc2)
              case None => data[..] == old(data[..])
              case Some(p) => data[..] == old(data[..])[p.1 := update(old(data[p.0]), old(data[p.1]))]
    {
      var i1 := loc1.1 * width + loc1.0;
      var i2 := loc2.1 * width + loc2.0;
      if i1 >= data.Length || i2 >= data.Length {
      } else if i1 < i2 {
        var low, high := data[..i2], data[i2..];
        data[i2] := update(low[i1], high[0]);
      } else if i1 > i2 {
        var low, high := data[..i1], data[i1..];
        data[i2] := update(high[0], low[i2]);
      } else {
        // Two mutable handles to one slot cannot be handed out.
      }
    }
  }
}
