/** The battle engine: torus neighbours, the four selection strategies, one fight, and one tick. */
module Battle {
  import opened Prelude
  import opened Grid

  /** The selection algorithm chosen on the command line. */
  datatype SelectionAlgorithm = ByWeakest | ByRandom

  /** The selection callback bound once at construction. */
  datatype Strategy = Weakest | WeakestFiltered | Random | RandomFiltered

  /** A die roll in the inclusive range 0..=100, as drawn by a chance-based fight. */
  type Roll = r: nat | r <= 100

  /** The `Fighter` contract of a kind whose values are stored in the grid cells: the filter
      predicate, the ranking score, and the fight, which yields the defender's new value and whether
      the defender died. The attacker is never changed. */
  datatype Fighter<!T> = Fighter(
    shouldFight: (T, T) -> bool,
    getEffectiveness: (T, T) -> int,
    fight: (T, T, Roll) -> (T, bool))

  /** `Battle::new`'s choice of callback: the filter flag and the algorithm pick exactly one. */
  function BindStrategy(algorithm: SelectionAlgorithm, filterFightCandidates: bool): (s: Strategy)
    ensures (s == WeakestFiltered || s == RandomFiltered) <==> filterFightCandidates
    ensures (s == Weakest || s == WeakestFiltered) <==> algorithm == ByWeakest
  {
    if filterFightCandidates then
      match algorithm
      case ByWeakest => WeakestFiltered
      case ByRandom => RandomFiltered
    else
      match algorithm
      case ByWeakest => Weakest
      case ByRandom => Random
  }

  // ---------------------------------------------------------------------------------------------
  // Neighbours on the torus

  /** The four wrapped neighbours, in the order up, right, down, left. */
  function Neighbours(loc: Location, size: Size): (r: seq<Location>)
    requires size.0 > 0 && size.1 > 0
    ensures |r| == 4
    ensures InBounds(loc, size) ==> forall k :: 0 <= k < 4 ==> InBounds(r[k], size)
  {
    var (x, y) := loc;
    var (w, h) := size;
    [(x, (y + h - 1) % h), ((x + 1) % w, y), (x, (y + 1) % h), ((x + w - 1) % w, y)]
  }

  /** One step back and one step forward along an axis of length `n`, with wrap-around. */
  lemma WrapSteps(a: nat, n: nat)
    requires a < n
    ensures (a + n - 1) % n == (if a == 0 then n - 1 else a - 1)
    ensures (a + 1) % n == (if a == n - 1 then 0 else a + 1)
  {
    if a > 0 {
      DivModUnique(a + n - 1, n, 1, a - 1);
    } else {
      DivModUnique(a + n - 1, n, 0, n - 1);
    }
    if a == n - 1 {
      DivModUnique(a + 1, n, 1, 0);
    } else {
      DivModUnique(a + 1, n, 0, a + 1);
    }
  }

  /** Up and down, right and left undo each other: the neighbour relation is symmetric. */
  lemma NeighboursInverse(loc: Location, size: Size)
    requires size.0 > 0 && size.1 > 0 && InBounds(loc, size)
    ensures Neighbours(Neighbours(loc, size)[0], size)[2] == loc
    ensures Neighbours(Neighbours(loc, size)[2], size)[0] == loc
    ensures Neighbours(Neighbours(loc, size)[1], size)[3] == loc
    ensures Neighbours(Neighbours(loc, size)[3], size)[1] == loc
  {
    var (x, y) := loc;
    var (w, h) := size;
    WrapSteps(x, w);
    WrapSteps(y, h);
    WrapSteps((y + h - 1) % h, h);
    WrapSteps((y + 1) % h, h);
    WrapSteps((x + 1) % w, w);
    WrapSteps((x + w - 1) % w, w);
  }

  /** On a 4 by 4 torus the neighbours of `(0, 0)` are `(0, 3)`, `(1, 0)`, `(0, 1)` and `(3, 0)`. */
  lemma NeighboursOfCorner()
    ensures Neighbours((0, 0), (4, 4)) == [(0, 3), (1, 0), (0, 1), (3, 0)]
  {
  }

  /** The attacker location decoded from a linear index: `(current % w, current / w)`. */
  function Decode(current: nat, width: nat): (loc: Location)
    requires width > 0
    ensures loc.0 < width
  {
    (current % width, current / width)
  }

  /** Decoding and re-encoding an index gives the index back. */
  lemma DecodeEncode(current: nat, width: nat)
    requires width > 0
    ensures Index(width, Decode(current, width)) == current
  {
  }

  /** Every index of the buffer decodes to a location inside the grid, and back. */
  lemma DecodeInBounds(current: nat, size: Size)
    requires size.0 > 0 && current < size.0 * size.1
    ensures InBounds(Decode(current, size.0), size)
  {
    var (w, h) := size;
    var q := current / w;
    assert current == q * w + current % w;
    if q >= h {
      MulMonotone(h, q, w);
      assert false;
    }
  }

  lemma EncodeDecode(loc: Location, width: nat)
    requires width > 0 && loc.0 < width
    ensures Decode(Index(width, loc), width) == loc
  {
    var i := Index(width, loc);
    assert i == loc.1 * width + loc.0;
    assert i / width == loc.1 && i % width == loc.0 by {
      DivModUnique(i, width, loc.1, loc.0);
    }
  }

  /** Euclidean division is determined by the quotient and remainder it has to produce. */
  lemma DivModUnique(i: nat, w: nat, q: nat, r: nat)
    requires w > 0 && r < w && i == q * w + r
    ensures i / w == q && i % w == r
  {
    var q', r' := i / w, i % w;
    if q' < q {
      MulStep(q', q, w);
    } else if q < q' {
      MulStep(q, q', w);
    }
  }

  lemma MulStep(a: nat, b: nat, w: nat)
    requires a < b
    ensures a * w + w <= b * w
  {
    MulMonotone(a + 1, b, w);
  }

  // ---------------------------------------------------------------------------------------------
  // Candidate pipelines: filter_map(get_candidate), filter(should_fight), max_by_key

  function GetCandidate<T>(cells: seq<T>, width: nat, loc: Location): (r: Option<(T, Location)>)
    ensures r.Some? <==> Lookup(cells, width, loc).Some?
    ensures r.Some? ==> r.value == (Lookup(cells, width, loc).value, loc)
  {
    match Lookup(cells, width, loc)
    case Some(item) => Some((item, loc))
    case None => None
  }

  /** `filter_map(get_candidate)`: the locations that hold a cell, paired with that cell, in order. */
  function Candidates<T>(cells: seq<T>, width: nat, locs: seq<Location>): (r: seq<(T, Location)>)
    ensures |r| <= |locs|
    ensures forall m :: 0 <= m < |r| ==> r[m].1 in locs && Lookup(cells, width, r[m].1) == Some(r[m].0)
    decreases |locs|
  {
    if |locs| == 0 then []
    else
      var rest := Candidates(cells, width, locs[..|locs| - 1]);
      match GetCandidate(cells, width, locs[|locs| - 1])
      case Some(c) => rest + [c]
      case None => rest
  }

  /** `filter(should_fight)` on candidates, in order. */
  function KeepShouldFight<T>(f: Fighter<T>, attacker: T, cands: seq<(T, Location)>): (r: seq<(T, Location)>)
    ensures |r| <= |cands|
    ensures forall m :: 0 <= m < |r| ==> r[m] in cands && f.shouldFight(attacker, r[m].0)
    decreases |cands|
  {
    if |cands| == 0 then []
    else
      var rest := KeepShouldFight(f, attacker, cands[..|cands| - 1]);
      var last := cands[|cands| - 1];
      if f.shouldFight(attacker, last.0) then rest + [last] else rest
  }

  /** Rust's `max_by_key` as an index: the fold keeps the best so far unless a later element's key
      is at least as large, so the result is an arg-max and the last one among ties. */
  function LastMaxIndex<A>(xs: seq<A>, key: A -> int): (i: nat)
    requires |xs| > 0
    ensures i < |xs|
    ensures forall j :: 0 <= j < |xs| ==> key(xs[j]) <= key(xs[i])
    ensures forall j :: i < j < |xs| ==> key(xs[j]) < key(xs[i])
    decreases |xs|
  {
    if |xs| == 1 then 0
    else
      var i := LastMaxIndex(xs[..|xs| - 1], key);
      if key(xs[i]) > key(xs[|xs| - 1]) then i else |xs| - 1
  }

  function MaxByKey<A>(xs: seq<A>, key: A -> int): (r: Option<A>)
    ensures r.None? <==> |xs| == 0
  {
    if |xs| == 0 then None else Some(xs[LastMaxIndex(xs, key)])
  }

  /** One more element at the end of the sequence meets the fold's best so far. */
  lemma MaxByKeySnoc<A>(xs: seq<A>, y: A, key: A -> int)
    ensures MaxByKey(xs + [y], key) ==
            match MaxByKey(xs, key)
            case None => Some(y)
            case Some(m) => if key(m) > key(y) then Some(m) else Some(y)
  {
    if |xs| > 0 {
      assert (xs + [y])[..|xs|] == xs;
    }
  }

  /** The ranking key of the weakest-neighbour strategies. */
  function EffKey<T>(f: Fighter<T>, attacker: T): ((T, Location)) -> int
  {
    (p: (T, Location)) => f.getEffectiveness(attacker, p.0)
  }

  /** The candidates a strategy ranks or draws from. */
  function Pool<T>(f: Fighter<T>, cells: seq<T>, width: nat, attacker: T, filtered: bool, locs: seq<Location>): seq<(T, Location)>
  {
    var cands := Candidates(cells, width, locs);
    if filtered then KeepShouldFight(f, attacker, cands) else cands
  }

  /** A location is eligible when it holds a cell and, under filtering, `should_fight` accepts it. */
  ghost predicate Qualifies<T>(f: Fighter<T>, cells: seq<T>, width: nat, attacker: T, filtered: bool, loc: Location)
  {
    Lookup(cells, width, loc).Some? &&
    (filtered ==> f.shouldFight(attacker, Lookup(cells, width, loc).value))
  }

  /** Position `k` of `locs` is eligible, of maximal effectiveness among the eligible positions, and
      every later eligible position is strictly less effective. */
  ghost predicate IsLastBest<T>(f: Fighter<T>, cells: seq<T>, width: nat, attacker: T, filtered: bool, locs: seq<Location>, k: int)
  {
    && 0 <= k < |locs|
    && Qualifies(f, cells, width, attacker, filtered, locs[k])
    && (forall j :: 0 <= j < |locs| && Qualifies(f, cells, width, attacker, filtered, locs[j]) ==>
          f.getEffectiveness(attacker, Lookup(cells, width, locs[j]).value)
          <= f.getEffectiveness(attacker, Lookup(cells, width, locs[k]).value))
    && (forall j :: k < j < |locs| && Qualifies(f, cells, width, attacker, filtered, locs[j]) ==>
          f.getEffectiveness(attacker, Lookup(cells, width, locs[j]).value)
          < f.getEffectiveness(attacker, Lookup(cells, width, locs[k]).value))
  }

  lemma PoolSnoc<T>(f: Fighter<T>, cells: seq<T>, width: nat, attacker: T, filtered: bool, locs: seq<Location>, l: Location)
    ensures Pool(f, cells, width, attacker, filtered, locs + [l]) ==
            Pool(f, cells, width, attacker, filtered, locs) +
            (if Qualifies(f, cells, width, attacker, filtered, l) then [(Lookup(cells, width, l).value, l)] else [])
  {
    var ls := locs + [l];
    assert ls[..|ls| - 1] == locs;
    var rest := Candidates(cells, width, locs);
    if filtered && Lookup(cells, width, l).Some? {
      var c := (Lookup(cells, width, l).value, l);
      assert (rest + [c])[..|rest|] == rest;
    }
  }

  /** The candidates of a selection are exactly the eligible locations, each with its cell. */
  lemma {:induction false} PoolMembers<T>(f: Fighter<T>, cells: seq<T>, width: nat, attacker: T, filtered: bool, locs: seq<Location>)
    ensures var pool := Pool(f, cells, width, attacker, filtered, locs);
            forall m :: 0 <= m < |pool| ==>
              pool[m].1 in locs && Qualifies(f, cells, width, attacker, filtered, pool[m].1)
              && pool[m].0 == Lookup(cells, width, pool[m].1).value
    ensures var pool := Pool(f, cells, width, attacker, filtered, locs);
            forall j :: 0 <= j < |locs| && Qualifies(f, cells, width, attacker, filtered, locs[j]) ==>
              exists m :: 0 <= m < |pool| && pool[m].1 == locs[j]
    decreases |locs|
  {
    if |locs| > 0 {
      var pre, l := locs[..|locs| - 1], locs[|locs| - 1];
      assert locs == pre + [l];
      PoolMembers(f, cells, width, attacker, filtered, pre);
      PoolSnoc(f, cells, width, attacker, filtered, pre, l);
      var pool := Pool(f, cells, width, attacker, filtered, locs);
      var prePool := Pool(f, cells, width, attacker, filtered, pre);
      forall j | 0 <= j < |locs| && Qualifies(f, cells, width, attacker, filtered, locs[j])
        ensures exists m :: 0 <= m < |pool| && pool[m].1 == locs[j]
      {
        if j < |pre| {
          assert locs[j] == pre[j];
          var m :| 0 <= m < |prePool| && prePool[m].1 == pre[j];
          assert pool[m] == prePool[m];
        } else {
          assert pool[|prePool|].1 == locs[j];
        }
      }
    }
  }

  /** `best` is what the weakest-neighbour pipelines must produce on `locs`: nothing exactly when
      no location is eligible, and otherwise the last best eligible location with its cell. */
  ghost predicate BestOf<T>(f: Fighter<T>, cells: seq<T>, width: nat, attacker: T, filtered: bool, locs: seq<Location>,
                            best: Option<(T, Location)>)
  {
    && (best.None? <==> forall j :: 0 <= j < |locs| ==> !Qualifies(f, cells, width, attacker, filtered, locs[j]))
    && (best.Some? ==> exists k :: IsLastBest(f, cells, width, attacker, filtered, locs, k)
                                   && best.value == (Lookup(cells, width, locs[k]).value, locs[k]))
  }

  /** The effectiveness of the cell at an eligible location, against `attacker`. */
  function LocKey<T>(f: Fighter<T>, cells: seq<T>, width: nat, attacker: T, loc: Location): int
    requires Lookup(cells, width, loc).Some?
  {
    f.getEffectiveness(attacker, Lookup(cells, width, loc).value)
  }

  /** A last best position stays last best when an ineligible or strictly weaker location follows. */
  lemma LastBestKeep<T>(f: Fighter<T>, cells: seq<T>, width: nat, attacker: T, filtered: bool, pre: seq<Location>, l: Location, k: int)
    requires IsLastBest(f, cells, width, attacker, filtered, pre, k)
    requires Qualifies(f, cells, width, attacker, filtered, l) ==>
               LocKey(f, cells, width, attacker, l) < LocKey(f, cells, width, attacker, pre[k])
    ensures IsLastBest(f, cells, width, attacker, filtered, pre + [l], k)
  {
    var locs := pre + [l];
    assert forall j :: 0 <= j < |pre| ==> locs[j] == pre[j];
  }

  /** An eligible location at least as strong as every eligible one before it is the new last best. */
  lemma LastBestNew<T>(f: Fighter<T>, cells: seq<T>, width: nat, attacker: T, filtered: bool, pre: seq<Location>, l: Location)
    requires Qualifies(f, cells, width, attacker, filtered, l)
    requires forall j :: 0 <= j < |pre| && Qualifies(f, cells, width, attacker, filtered, pre[j]) ==>
               LocKey(f, cells, width, attacker, pre[j]) <= LocKey(f, cells, width, attacker, l)
    ensures IsLastBest(f, cells, width, attacker, filtered, pre + [l], |pre|)
  {
    var locs := pre + [l];
    assert forall j :: 0 <= j < |pre| ==> locs[j] == pre[j];
  }

  /** One more location at the end: the fold's step keeps `BestOf`. */
  lemma PoolMaxStep<T>(f: Fighter<T>, cells: seq<T>, width: nat, attacker: T, filtered: bool, pre: seq<Location>, l: Location)
    requires BestOf(f, cells, width, attacker, filtered, pre,
                    MaxByKey(Pool(f, cells, width, attacker, filtered, pre), EffKey(f, attacker)))
    ensures BestOf(f, cells, width, attacker, filtered, pre + [l],
                   MaxByKey(Pool(f, cells, width, attacker, filtered, pre + [l]), EffKey(f, attacker)))
  {
    var key := EffKey(f, attacker);
    var locs := pre + [l];
    assert forall j :: 0 <= j < |pre| ==> locs[j] == pre[j];
    PoolSnoc(f, cells, width, attacker, filtered, pre, l);
    var prePool := Pool(f, cells, width, attacker, filtered, pre);
    var preBest := MaxByKey(prePool, key);
    var q := Qualifies(f, cells, width, attacker, filtered, l);
    if preBest.Some? {
      var k :| IsLastBest(f, cells, width, attacker, filtered, pre, k)
               && preBest.value == (Lookup(cells, width, pre[k]).value, pre[k]);
      if !q {
        assert Pool(f, cells, width, attacker, filtered, locs) == prePool;
        LastBestKeep(f, cells, width, attacker, filtered, pre, l, k);
      } else {
        var c := (Lookup(cells, width, l).value, l);
        MaxByKeySnoc(prePool, c, key);
        if key(preBest.value) > key(c) {
          LastBestKeep(f, cells, width, attacker, filtered, pre, l, k);
        } else {
          LastBestNew(f, cells, width, attacker, filtered, pre, l);
        }
      }
    } else if q {
      var c := (Lookup(cells, width, l).value, l);
      MaxByKeySnoc(prePool, c, key);
      LastBestNew(f, cells, width, attacker, filtered, pre, l);
    } else {
      assert Pool(f, cells, width, attacker, filtered, locs) == prePool;
    }
  }

  /** `PoolMaxStep` for the last location of a non-empty sequence. */
  lemma PoolMaxLast<T>(f: Fighter<T>, cells: seq<T>, width: nat, attacker: T, filtered: bool, locs: seq<Location>)
    requires |locs| > 0
    requires BestOf(f, cells, width, attacker, filtered, locs[..|locs| - 1],
                    MaxByKey(Pool(f, cells, width, attacker, filtered, locs[..|locs| - 1]), EffKey(f, attacker)))
    ensures BestOf(f, cells, width, attacker, filtered, locs,
                   MaxByKey(Pool(f, cells, width, attacker, filtered, locs), EffKey(f, attacker)))
  {
    var pre, l := locs[..|locs| - 1], locs[|locs| - 1];
    assert locs == pre + [l];
    PoolMaxStep(f, cells, width, attacker, filtered, pre, l);
  }

  /** The weakest-neighbour pipelines select the last best eligible location, and nothing exactly
      when no location is eligible. */
  lemma {:induction false} PoolMax<T>(f: Fighter<T>, cells: seq<T>, width: nat, attacker: T, filtered: bool, locs: seq<Location>)
    ensures BestOf(f, cells, width, attacker, filtered, locs,
                   MaxByKey(Pool(f, cells, width, attacker, filtered, locs), EffKey(f, attacker)))
    decreases |locs|
  {
    if |locs| > 0 {
      PoolMax(f, cells, width, attacker, filtered, locs[..|locs| - 1]);
      PoolMaxLast(f, cells, width, attacker, filtered, locs);
    }
  }

  /** Two positions that are both last best are the same position: the weakest-neighbour choice is
      determined by the grid. */
  lemma LastBestUnique<T>(f: Fighter<T>, cells: seq<T>, width: nat, attacker: T, filtered: bool, locs: seq<Location>, k1: int, k2: int)
    requires IsLastBest(f, cells, width, attacker, filtered, locs, k1)
    requires IsLastBest(f, cells, width, attacker, filtered, locs, k2)
    ensures k1 == k2
  {
  }

  // ---------------------------------------------------------------------------------------------
  // The four strategies

  /** What the weakest-neighbour strategies promise: nothing when the origin holds no cell;
      otherwise nothing exactly when no neighbour is eligible, and else the last best neighbour. */
  ghost predicate SelectsLastBest<T>(f: Fighter<T>, cells: seq<T>, size: Size, origin: Location, filtered: bool, r: Option<Location>)
    requires size.0 > 0 && size.1 > 0
  {
    var ns := Neighbours(origin, size);
    match Lookup(cells, size.0, origin)
    case None => r.None?
    case Some(fighter) =>
      && (r.None? <==> forall k :: 0 <= k < 4 ==> !Qualifies(f, cells, size.0, fighter, filtered, ns[k]))
      && (r.Some? ==> exists k :: IsLastBest(f, cells, size.0, fighter, filtered, ns, k) && r.value == ns[k])
  }

  /** What the random strategies promise: a neighbour that is eligible, and nothing only when
      the origin holds no cell or no neighbour is eligible. */
  ghost predicate SelectsEligible<T>(f: Fighter<T>, cells: seq<T>, size: Size, origin: Location, r: Option<Location>)
    requires size.0 > 0 && size.1 > 0
  {
    var ns := Neighbours(origin, size);
    match Lookup(cells, size.0, origin)
    case None => r.None?
    case Some(fighter) =>
      && (r.None? <==> forall k :: 0 <= k < 4 ==> !Qualifies(f, cells, size.0, fighter, true, ns[k]))
      && (r.Some? ==> r.value in ns && Qualifies(f, cells, size.0, fighter, true, r.value))
  }

  function WeakestNeighbour<T>(f: Fighter<T>, cells: seq<T>, size: Size, origin: Location): (r: Option<Location>)
    requires size.0 > 0 && size.1 > 0
    ensures SelectsLastBest(f, cells, size, origin, false, r)
  {
    match Lookup(cells, size.0, origin)
    case None => None
    case Some(fighter) =>
      var ns := Neighbours(origin, size);
      PoolMax(f, cells, size.0, fighter, false, ns);
      match MaxByKey(Candidates(cells, size.0, ns), EffKey(f, fighter))
      case None => None
      case Some(p) => Some(p.1)
  }

  function WeakestNeighbourFiltered<T>(f: Fighter<T>, cells: seq<T>, size: Size, origin: Location): (r: Option<Location>)
    requires size.0 > 0 && size.1 > 0
    ensures SelectsLastBest(f, cells, size, origin, true, r)
  {
    match Lookup(cells, size.0, origin)
    case None => None
    case Some(fighter) =>
      var ns := Neighbours(origin, size);
      PoolMax(f, cells, size.0, fighter, true, ns);
      match MaxByKey(KeepShouldFight(f, fighter, Candidates(cells, size.0, ns)), EffKey(f, fighter))
      case None => None
      case Some(p) => Some(p.1)
  }

  /** A draw among the four neighbours. */
  function RandomNeighbour(size: Size, origin: Location, choice: nat): (r: Option<Location>)
    requires size.0 > 0 && size.1 > 0
    ensures r.Some? && r.value in Neighbours(origin, size)
  {
    ChooseFrom(Neighbours(origin, size), choice)
  }

  /** `choose` on an iterator, modelled by the drawn index `choice`: nothing on an empty pool,
      otherwise one of its members. */
  function ChooseFrom<A>(pool: seq<A>, choice: nat): (r: Option<A>)
    ensures r.None? <==> |pool| == 0
    ensures r.Some? ==> r.value in pool
  {
    if |pool| == 0 then None else Some(pool[choice % |pool|])
  }

  /** Every member of the pool is the draw of some index. */
  lemma ChooseReaches<A>(pool: seq<A>, m: nat)
    requires m < |pool|
    ensures ChooseFrom(pool, m) == Some(pool[m])
  {
    DivModUnique(m, |pool|, 0, m);
  }

  /** The pool is empty exactly when no location is eligible. */
  lemma PoolEmpty<T>(f: Fighter<T>, cells: seq<T>, width: nat, attacker: T, filtered: bool, locs: seq<Location>)
    ensures |Pool(f, cells, width, attacker, filtered, locs)| == 0 <==>
            forall j :: 0 <= j < |locs| ==> !Qualifies(f, cells, width, attacker, filtered, locs[j])
  {
    PoolMembers(f, cells, width, attacker, filtered, locs);
    var pool := Pool(f, cells, width, attacker, filtered, locs);
    if |pool| > 0 {
      assert pool[0].1 in locs;
      var j :| 0 <= j < |locs| && locs[j] == pool[0].1;
      assert Qualifies(f, cells, width, attacker, filtered, locs[j]);
    }
  }

  function RandomNeighbourFiltered<T>(f: Fighter<T>, cells: seq<T>, size: Size, origin: Location, choice: nat): (r: Option<Location>)
    requires size.0 > 0 && size.1 > 0
    ensures SelectsEligible(f, cells, size, origin, r)
  {
    match Lookup(cells, size.0, origin)
    case None => None
    case Some(fighter) =>
      var ns := Neighbours(origin, size);
      var pool := KeepShouldFight(f, fighter, Candidates(cells, size.0, ns));
      PoolMembers(f, cells, size.0, fighter, true, ns);
      PoolEmpty(f, cells, size.0, fighter, true, ns);
      match ChooseFrom(pool, choice)
      case None => None
      case Some(p) => Some(p.1)
  }

  /** Every eligible neighbour is drawn by some value of the random index. */
  lemma RandomFilteredReachesEvery<T>(f: Fighter<T>, cells: seq<T>, size: Size, origin: Location, k: nat)
    requires size.0 > 0 && size.1 > 0 && k < 4
    requires Lookup(cells, size.0, origin).Some?
    requires Qualifies(f, cells, size.0, Lookup(cells, size.0, origin).value, true, Neighbours(origin, size)[k])
    ensures exists choice: nat :: RandomNeighbourFiltered(f, cells, size, origin, choice) == Some(Neighbours(origin, size)[k])
  {
    var fighter := Lookup(cells, size.0, origin).value;
    var ns := Neighbours(origin, size);
    PoolMembers(f, cells, size.0, fighter, true, ns);
    var pool := KeepShouldFight(f, fighter, Candidates(cells, size.0, ns));
    var m :| 0 <= m < |pool| && pool[m].1 == ns[k];
    ChooseReaches(pool, m);
    assert RandomNeighbourFiltered(f, cells, size, origin, m) == Some(ns[k]);
  }

  /** Inside a full grid the unfiltered strategies always find a defender. */
  lemma UnfilteredAlwaysSelects<T>(f: Fighter<T>, cells: seq<T>, size: Size, origin: Location, choice: nat)
    requires size.0 > 0 && size.1 > 0 && |cells| == size.0 * size.1 && InBounds(origin, size)
    ensures WeakestNeighbour(f, cells, size, origin).Some?
    ensures RandomNeighbour(size, origin, choice).Some?
  {
    LookupInBounds(cells, size, origin);
    var ns := Neighbours(origin, size);
    LookupInBounds(cells, size, ns[0]);
  }

  /** The bound callback. */
  function Select<T>(s: Strategy, f: Fighter<T>, cells: seq<T>, size: Size, origin: Location, choice: nat): (r: Option<Location>)
    requires size.0 > 0 && size.1 > 0
    ensures r.Some? ==> r.value in Neighbours(origin, size)
  {
    match s
    case Weakest => WeakestNeighbour(f, cells, size, origin)
    case WeakestFiltered => WeakestNeighbourFiltered(f, cells, size, origin)
    case Random => RandomNeighbour(size, origin, choice)
    case RandomFiltered => RandomNeighbourFiltered(f, cells, size, origin, choice)
  }

  /** A filtered strategy never picks a neighbour that `should_fight` rejects. */
  lemma FilteredSelectionShouldFight<T>(s: Strategy, f: Fighter<T>, cells: seq<T>, size: Size, origin: Location, choice: nat)
    requires size.0 > 0 && size.1 > 0
    requires s == WeakestFiltered || s == RandomFiltered
    requires Select(s, f, cells, size, origin, choice).Some?
    ensures Lookup(cells, size.0, origin).Some?
    ensures var d := Select(s, f, cells, size, origin, choice).value;
            Lookup(cells, size.0, d).Some? &&
            f.shouldFight(Lookup(cells, size.0, origin).value, Lookup(cells, size.0, d).value)
  {
    var r := Select(s, f, cells, size, origin, choice);
    var fighter := Lookup(cells, size.0, origin).value;
    if s == WeakestFiltered {
      var k :| IsLastBest(f, cells, size.0, fighter, true, Neighbours(origin, size), k)
               && r.value == Neighbours(origin, size)[k];
    }
  }

  // ---------------------------------------------------------------------------------------------
  // One fight

  /** `Battle::fight` on the grid's contents: only the defender's cell can change, and nothing
      changes when `get_pair_mut` refuses (a location outside the buffer, or attacker == defender). */
  function FightCells<T>(f: Fighter<T>, cells: seq<T>, width: nat, attacker: Location, defender: Location, roll: Roll): (r: seq<T>)
    ensures |r| == |cells|
    ensures PairIndices(|cells|, width, attacker, defender).None? ==> r == cells
    ensures forall i :: 0 <= i < |cells| && i != Index(width, defender) ==> r[i] == cells[i]
    ensures PairIndices(|cells|, width, attacker, defender).Some? ==>
              r[Index(width, defender)] ==
              f.fight(cells[Index(width, attacker)], cells[Index(width, defender)], roll).0
  {
    match PairIndices(|cells|, width, attacker, defender)
    case None => cells
    case Some(p) => cells[p.1 := f.fight(cells[p.0], cells[p.1], roll).0]
  }

  // ---------------------------------------------------------------------------------------------
  // The traversal of one tick

  const PRIMES: seq<nat> := [48817, 58099, 89867, 105407, 126943, 200723, 221021, 231677]

  /** The value of `current` after `k` advances `current = (current + offset) % n`. */
  function Orbit(start: nat, offset: nat, n: nat, k: nat): (c: nat)
    requires n > 0 && start < n
    ensures c < n
  {
    if k == 0 then start else (Orbit(start, offset, n, k - 1) + offset) % n
  }

  lemma ModAddMultiple(a: nat, n: nat, q: nat)
    requires n > 0
    ensures (a + q * n) % n == a % n
  {
    DivModUnique(a + q * n, n, a / n + q, a % n);
  }

  lemma ModOfSum(a: nat, b: nat, n: nat)
    requires n > 0
    ensures (a % n + b) % n == (a + b) % n
  {
    assert a + b == (a % n + b) + (a / n) * n;
    ModAddMultiple(a % n + b, n, a / n);
  }

  /** The closed form of the traversal: after `k` advances, `current == (start + k * offset) % n`. */
  lemma {:induction false} OrbitClosedForm(start: nat, offset: nat, n: nat, k: nat)
    requires n > 0 && start < n
    ensures Orbit(start, offset, n, k) == (start + k * offset) % n
  {
    if k > 0 {
      OrbitClosedForm(start, offset, n, k - 1);
      var a := start + (k - 1) * offset;
      ModOfSum(a, offset, n);
      MulSucc(k - 1, offset);
    }
  }

  lemma MulSucc(j: nat, m: nat)
    ensures j * m + m == (j + 1) * m
  {
  }

  /** After `n` advances the traversal is back at `start`, whatever the offset. */
  lemma OrbitReturns(start: nat, offset: nat, n: nat)
    requires n > 0 && start < n
    ensures Orbit(start, offset, n, n) == start
  {
    OrbitClosedForm(start, offset, n, n);
    var m := n * offset;
    assert m == offset * n;
    ModAddMultiple(start, n, offset);
    SmallMod(start, n);
  }

  /** The first `m >= from` at which the traversal is back at `start`. */
  function ReturnFrom(start: nat, offset: nat, n: nat, from: nat): (m: nat)
    requires n > 0 && start < n && 1 <= from <= n
    requires forall j :: 1 <= j < from ==> Orbit(start, offset, n, j) != start
    ensures from <= m <= n && Orbit(start, offset, n, m) == start
    ensures forall j :: 1 <= j < m ==> Orbit(start, offset, n, j) != start
    decreases n - from
  {
    if Orbit(start, offset, n, from) == start then from
    else
      OrbitReturns(start, offset, n);
      ReturnFrom(start, offset, n, from + 1)
  }

  /** The number of iterations of one tick: the first return to `start`, which is at most `n`. */
  function ReturnTime(start: nat, offset: nat, n: nat): (m: nat)
    requires n > 0 && start < n
    ensures 1 <= m <= n && Orbit(start, offset, n, m) == start
    ensures forall j :: 1 <= j < m ==> Orbit(start, offset, n, j) != start
  {
    ReturnFrom(start, offset, n, 1)
  }
  /** Any first return to `start` is the one `ReturnTime` names. */
  lemma ReturnTimeUnique(start: nat, offset: nat, n: nat, m: nat)
    requires n > 0 && start < n && 1 <= m
    requires Orbit(start, offset, n, m) == start
    requires forall j :: 1 <= j < m ==> Orbit(start, offset, n, j) != start
    ensures m == ReturnTime(start, offset, n)
  {
  }


  /** Adding `offset` modulo `n` is one-to-one on `0..n`. */
  lemma StepInjective(a: nat, b: nat, offset: nat, n: nat)
    requires a < n && b < n && (a + offset) % n == (b + offset) % n
    ensures a == b
  {
    var o := offset % n;
    ModOfSum(offset, a, n);
    ModOfSum(offset, b, n);
    assert (a + offset) % n == (a + o) % n && (b + offset) % n == (b + o) % n;
    SmallMod(a + o, n);
    SmallMod(b + o, n);
  }

  /** Below `2 * n`, reducing modulo `n` subtracts `n` at most once. */
  lemma SmallMod(x: nat, n: nat)
    requires n > 0 && x < 2 * n
    ensures x % n == if x < n then x else x - n
  {
    if x < n {
      DivModUnique(x, n, 0, x);
    } else {
      DivModUnique(x, n, 1, x - n);
    }
  }

  /** If two points `d` apart coincide, the traversal returns to `start` after `d` advances. */
  lemma {:induction false} OrbitCancel(start: nat, offset: nat, n: nat, i: nat, d: nat)
    requires n > 0 && start < n
    requires Orbit(start, offset, n, i + d) == Orbit(start, offset, n, i)
    ensures Orbit(start, offset, n, d) == start
  {
    if i > 0 {
      assert i + d == (i - 1 + d) + 1;
      StepInjective(Orbit(start, offset, n, i - 1 + d), Orbit(start, offset, n, i - 1), offset, n);
      OrbitCancel(start, offset, n, i - 1, d);
    }
  }

  /** One tick visits `ReturnTime` attacker indices, each exactly once. */
  lemma VisitsDistinct(start: nat, offset: nat, n: nat, i: nat, j: nat)
    requires n > 0 && start < n
    requires i < j < ReturnTime(start, offset, n)
    ensures Orbit(start, offset, n, i) != Orbit(start, offset, n, j)
  {
    if Orbit(start, offset, n, i) == Orbit(start, offset, n, j) {
      assert j == i + (j - i);
      OrbitCancel(start, offset, n, i, j - i);
      assert false;
    }
  }

  /** The engine's configuration: the kind's contract, the bound strategy and the grid size. */
  datatype Config<!T> = Config(fighter: Fighter<T>, strategy: Strategy, size: Size)

  /** The random values one tick consumes: the start index, the index into `PRIMES`, and, for the
      k-th attacker, the strategy's random index and the fight's roll. */
  datatype Draws = Draws(start: nat, offsetIndex: nat, choose: nat -> nat, roll: nat -> Roll)

  predicate ValidTick<T>(cfg: Config<T>, cells: seq<T>, draws: Draws)
  {
    && cfg.size.0 > 0 && cfg.size.1 > 0
    && |cells| == cfg.size.0 * cfg.size.1
    && draws.start < |cells|
    && draws.offsetIndex < |PRIMES|
  }

  /** The k-th attacker of a tick. */
  function Attacker<T>(cfg: Config<T>, cells: seq<T>, draws: Draws, k: nat): Location
    requires ValidTick(cfg, cells, draws)
  {
    Decode(Orbit(draws.start, PRIMES[draws.offsetIndex], |cells|, k), cfg.size.0)
  }

  /** One iteration of the tick's loop: the attacker at `current` picks a defender and fights it.
      At most one cell changes, and that cell is a neighbour of the attacker. */
  function Step<T>(cfg: Config<T>, cells: seq<T>, current: nat, choice: nat, roll: Roll): (r: seq<T>)
    requires cfg.size.0 > 0 && cfg.size.1 > 0
    ensures |r| == |cells|
    ensures forall i :: 0 <= i < |cells| && r[i] != cells[i] ==>
              exists k :: 0 <= k < 4 && i == Index(cfg.size.0, Neighbours(Decode(current, cfg.size.0), cfg.size)[k])
  {
    var attacker := Decode(current, cfg.size.0);
    match Select(cfg.strategy, cfg.fighter, cells, cfg.size, attacker, choice)
    case None => cells
    case Some(defender) =>
      var ns := Neighbours(attacker, cfg.size);
      assert exists k :: 0 <= k < 4 && ns[k] == defender;
      FightCells(cfg.fighter, cells, cfg.size.0, attacker, defender, roll)
  }

  /** The grid after the first `k` iterations of a tick. */
  function Run<T>(cfg: Config<T>, cells: seq<T>, draws: Draws, k: nat): (r: seq<T>)
    requires ValidTick(cfg, cells, draws)
    ensures |r| == |cells|
  {
    if k == 0 then cells
    else
      Step(cfg, Run(cfg, cells, draws, k - 1),
           Orbit(draws.start, PRIMES[draws.offsetIndex], |cells|, k - 1),
           draws.choose(k - 1), draws.roll(k - 1))
  }

  /** The grid after one whole tick. */
  function Tick<T>(cfg: Config<T>, cells: seq<T>, draws: Draws): (r: seq<T>)
    requires ValidTick(cfg, cells, draws)
    ensures |r| == |cells|
  {
    Run(cfg, cells, draws, ReturnTime(draws.start, PRIMES[draws.offsetIndex], |cells|))
  }

  /** A cell that changed during the first `k` iterations is a neighbour of one of their attackers. */
  lemma {:induction false} RunChangesOnlyNeighbours<T>(cfg: Config<T>, cells: seq<T>, draws: Draws, k: nat, i: nat)
    requires ValidTick(cfg, cells, draws)
    requires i < |cells| && Run(cfg, cells, draws, k)[i] != cells[i]
    ensures exists j, q :: 0 <= j < k && 0 <= q < 4 &&
              i == Index(cfg.size.0, Neighbours(Attacker(cfg, cells, draws, j), cfg.size)[q])
  {
    if k == 0 {
      assert false;
    } else {
      var prev := Run(cfg, cells, draws, k - 1);
      if prev[i] != cells[i] {
        RunChangesOnlyNeighbours(cfg, cells, draws, k - 1, i);
        var j, q :| 0 <= j < k - 1 && 0 <= q < 4 &&
                    i == Index(cfg.size.0, Neighbours(Attacker(cfg, cells, draws, j), cfg.size)[q]);
        assert 0 <= j < k;
      } else {
        assert Run(cfg, cells, draws, k)[i] != prev[i];
        var q :| 0 <= q < 4 &&
                 i == Index(cfg.size.0, Neighbours(Attacker(cfg, cells, draws, k - 1), cfg.size)[q]);
        assert 0 <= k - 1 < k;
      }
    }
  }

  /** `fight` keeps the property `P` of the defender when attacker and defender have it. */
  ghost predicate FightPreserves<T(!new)>(f: Fighter<T>, P: T -> bool)
  {
    forall a: T, d: T, roll: Roll :: P(a) && P(d) ==> P(f.fight(a, d, roll).0)
  }

  /** A cell property that every fight preserves holds of every cell after any number of iterations. */
  lemma {:induction false} RunPreserves<T(!new)>(cfg: Config<T>, cells: seq<T>, draws: Draws, k: nat, P: T -> bool)
    requires ValidTick(cfg, cells, draws)
    requires FightPreserves(cfg.fighter, P)
    requires forall i :: 0 <= i < |cells| ==> P(cells[i])
    ensures forall i :: 0 <= i < |cells| ==> P(Run(cfg, cells, draws, k)[i])
  {
    if k > 0 {
      RunPreserves(cfg, cells, draws, k - 1, P);
      var prev := Run(cfg, cells, draws, k - 1);
      var current := Orbit(draws.start, PRIMES[draws.offsetIndex], |cells|, k - 1);
      var attacker := Decode(current, cfg.size.0);
      match Select(cfg.strategy, cfg.fighter, prev, cfg.size, attacker, draws.choose(k - 1))
      case None =>
      case Some(defender) =>
        match PairIndices(|prev|, cfg.size.0, attacker, defender)
        case None =>
        case Some(p) =>
          var fought := cfg.fighter.fight(prev[p.0], prev[p.1], draws.roll(k - 1));
          assert P(fought.0);
    }
  }

  /** A property every fight preserves holds of every cell after a whole tick. */
  lemma TickPreserves<T(!new)>(cfg: Config<T>, cells: seq<T>, draws: Draws, P: T -> bool)
    requires ValidTick(cfg, cells, draws)
    requires FightPreserves(cfg.fighter, P)
    requires forall i :: 0 <= i < |cells| ==> P(cells[i])
    ensures forall i :: 0 <= i < |cells| ==> P(Tick(cfg, cells, draws)[i])
  {
    RunPreserves(cfg, cells, draws, ReturnTime(draws.start, PRIMES[draws.offsetIndex], |cells|), P);
  }

  // ---------------------------------------------------------------------------------------------
  // The engine object

  class Battle<T> {
    const fighters: Grid2D<T>
    const fighter: Fighter<T>
    const strategy: Strategy

    ghost predicate Valid()
    {
      fighters.Valid() && fighters.width > 0 && fighters.height > 0
    }

    function Cfg(): Config<T>
    {
      Config(fighter, strategy, (fighters.width, fighters.height))
    }

    /** `Battle::new`: the grid filled by the generator and the callback bound once. The size limits
        are those the command line enforces. */
    constructor (width: nat, height: nat, algorithm: SelectionAlgorithm, filterFightCandidates: bool,
                 fighter: Fighter<T>, generator: nat -> T)
      requires 32 <= width <= 8192 && 32 <= height <= 8192
      ensures Valid() && fresh(fighters) && fresh(fighters.data)
      ensures fighters.width == width && fighters.height == height
      ensures forall i :: 0 <= i < fighters.data.Length ==> fighters.data[i] == generator(i)
      ensures this.fighter == fighter
      ensures strategy == BindStrategy(algorithm, filterFightCandidates)
    {
      fighters := new Grid2D.NewWith((width, height), generator);
      this.fighter := fighter;
      strategy := BindStrategy(algorithm, filterFightCandidates);
    }

    /** `fighter(location)`: read access for rendering. */
    function FighterAt(loc: Location): (r: Option<T>)
      reads fighters.data
      ensures r == Lookup(fighters.data[..], fighters.width, loc)
    {
      fighters.Get(loc)
    }

    method Fight(attackerLoc: Location, defenderLoc: Location, roll: Roll)
      modifies fighters.data
      ensures fighters.data[..] == FightCells(fighter, old(fighters.data[..]), fighters.width, attackerLoc, defenderLoc, roll)
    {
      fighters.ModifyPair(attackerLoc, defenderLoc, (a: T, d: T) => fighter.fight(a, d, roll).0);
    }

    /** One iteration of `action`'s loop: the attacker at linear index `current` selects a defender
        with the bound strategy and, if there is one, fights it. */
    method Attack(current: nat, choice: nat, roll: Roll)
      requires Valid()
      modifies fighters.data
      ensures fighters.data[..] == Step(Cfg(), old(fighters.data[..]), current, choice, roll)
    {
      var (w, h) := fighters.Size();
      var attackerLoc := Decode(current, w);
      var defenderLoc := Select(strategy, fighter, fighters.data[..], (w, h), attackerLoc, choice);
      if defenderLoc.Some? {
        Fight(attackerLoc, defenderLoc.value, roll);
      }
    }

    /** `action`: one tick. The loop runs `ReturnTime` iterations, at most one per cell. */
    method Action(draws: Draws)
      requires Valid()
      requires draws.start < fighters.data.Length && draws.offsetIndex < |PRIMES|
      modifies fighters.data
      ensures fighters.data[..] == Tick(Cfg(), old(fighters.data[..]), draws)
    {
      var (w, h) := fighters.Size();
      var numEntries := fighters.Count();
      var start := draws.start;
      var offset := PRIMES[draws.offsetIndex];
      ghost var cells := fighters.data[..];
      ghost var cfg := Cfg();
      assert ValidTick(cfg, cells, draws);
      var current := start;
      var k: nat := 0;
      while true
        invariant k < numEntries
        invariant current == Orbit(start, offset, numEntries, k)
        invariant forall j :: 1 <= j <= k ==> Orbit(start, offset, numEntries, j) != start
        invariant fighters.data[..] == Run(cfg, cells, draws, k)
        decreases numEntries - k
      {
        Attack(current, draws.choose(k), draws.roll(k));
        current := (current + offset) % numEntries;
        k := k + 1;
        assert current == Orbit(start, offset, numEntries, k);
        if current == start {
          assert forall j :: 1 <= j < k ==> Orbit(start, offset, numEntries, j) != start;
          ReturnTimeUnique(start, offset, numEntries, k);
          break;
        }
        OrbitReturns(start, offset, numEntries);
      }
    }
  }
}
