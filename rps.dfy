/** The rock-paper-scissors rules: a cyclic 3 by 3 win table, health 100 and damage 100. */
module Rps {
  import opened Prelude
  import opened Tables
  import Grid
  import Battle

  datatype Kind = Rock | Paper | Scissor

  const COUNT: nat := 3

  /** `From<RPSType> for usize`: the discriminant. */
  function Repr(k: Kind): (i: nat)
    ensures i < COUNT
  {
    match k
    case Rock => 0
    case Paper => 1
    case Scissor => 2
  }

  /** `From<usize> for RPSType`, which unwraps `from_repr` and so is defined only below `COUNT`. */
  function FromIndex(i: nat): (k: Kind)
    requires i < COUNT
    ensures Repr(k) == i
  {
    match i
    case 0 => Rock
    case 1 => Paper
    case _ => Scissor
  }

  lemma FromIndexRepr(k: Kind)
    ensures FromIndex(Repr(k)) == k
  {
  }

  const ROW_ROCK: seq<int> := [  0,   0, 100]
  const ROW_PAPER: seq<int> := [100,   0,   0]
  const ROW_SCISSOR: seq<int> := [  0, 100,   0]

  const EFFICIENCY: seq<seq<int>> := [ROW_ROCK, ROW_PAPER, ROW_SCISSOR]

  /** The cycle of the game, written independently of the table: rock blunts scissors, paper
      covers rock, scissors cut paper. */
  predicate Beats(attacker: Kind, defender: Kind)
  {
    (attacker == Rock && defender == Scissor) ||
    (attacker == Paper && defender == Rock) ||
    (attacker == Scissor && defender == Paper)
  }

  /** `get_effectiveness`: the table entry for the two kinds. */
  function Effectiveness(attacker: Kind, defender: Kind): (e: int)
    ensures e == 100 || e == 0
  {
    assert SquareWithin(EFFICIENCY, COUNT, {0, 100});
    EntryWithin(EFFICIENCY, COUNT, {0, 100}, Repr(attacker), Repr(defender));
    EFFICIENCY[Repr(attacker)][Repr(defender)]
  }

  /** The table is exactly the cycle: 100 for a winning pair and 0 for every other pair. */
  lemma EffectivenessIsCycle(attacker: Kind, defender: Kind)
    ensures Effectiveness(attacker, defender) == 100 <==> Beats(attacker, defender)
    ensures Effectiveness(attacker, defender) == 0 <==> !Beats(attacker, defender)
  {
  }

  /** Every kind beats exactly one kind and loses to exactly one kind, and never beats itself. */
  lemma CycleIsBalanced(k: Kind)
    ensures !Beats(k, k)
    ensures exists d :: Beats(k, d) && forall d' :: Beats(k, d') ==> d' == d
    ensures exists a :: Beats(a, k) && forall a' :: Beats(a', k) ==> a' == a
  {
    match k
    case Rock => assert Beats(Rock, Scissor) && Beats(Paper, Rock);
    case Paper => assert Beats(Paper, Rock) && Beats(Scissor, Paper);
    case Scissor => assert Beats(Scissor, Paper) && Beats(Rock, Scissor);
  }

  /** The unit test of `get_effectiveness`, all nine pairs. */
  lemma EffectivenessTest()
    ensures Effectiveness(Rock, Scissor) == 100
    ensures Effectiveness(Paper, Rock) == 100
    ensures Effectiveness(Scissor, Paper) == 100
    ensures Effectiveness(Scissor, Rock) == 0
    ensures Effectiveness(Rock, Paper) == 0
    ensures Effectiveness(Paper, Scissor) == 0
    ensures Effectiveness(Scissor, Scissor) == 0
    ensures Effectiveness(Rock, Rock) == 0
    ensures Effectiveness(Paper, Paper) == 0
  {
  }

  // ---------------------------------------------------------------------------------------------
  // A fighter

  const HEALTH: int := 100
  const DAMAGE: int := 100

  /** The fields of an `RPS`. */
  datatype Rps = Rps(health: int, damage: int, kind: Kind)

  /** `RPS::new`, and the state `reset` leaves behind. */
  function Spawn(kind: Kind): (p: Rps)
    ensures Fresh(p) && p.kind == kind
  {
    Rps(HEALTH, DAMAGE, kind)
  }

  /** `take_damage` on a value. */
  function AfterDamage(p: Rps, damage: int): (Rps, bool)
  {
    var q := p.(health := p.health - damage);
    (q, q.health <= 0)
  }

  function AttackDamage(attacker: Rps, defender: Rps): int
  {
    TruncDiv(attacker.damage * Effectiveness(attacker.kind, defender.kind), 100)
  }

  /** `fight` on values: the defender's new state and whether it died. */
  function FightRule(attacker: Rps, defender: Rps): (Rps, bool)
  {
    var (hit, dead) := AfterDamage(defender, AttackDamage(attacker, defender));
    if dead then (Spawn(attacker.kind), true) else (hit, false)
  }

  /** The unit test of `take_damage`: 0 leaves 100 alive and unchanged, then 100 kills. */
  lemma TakeDamageTest()
    ensures var (once, dead1) := AfterDamage(Spawn(Rock), 0);
            && once.health == HEALTH && !dead1
            && var (twice, dead2) := AfterDamage(once, 100);
               twice.health != once.health && dead2
  {
  }

  /** The unit test of `reset`: a reset fighter takes the new kind, dies of 100 and survives 0. */
  lemma ResetTest()
    ensures Spawn(Paper).kind == Paper && AfterDamage(Spawn(Paper), 100).1
    ensures Spawn(Scissor).kind == Scissor && !AfterDamage(Spawn(Scissor), 0).1
  {
  }

  /** The state every fighter on the grid stays in. */
  predicate Fresh(p: Rps)
  {
    p.health == HEALTH && p.damage == DAMAGE
  }

  /** Between fresh fighters a winning attack kills and converts the defender in one fight, and any
      other attack changes nothing. */
  lemma FightOutcome(attacker: Rps, defender: Rps)
    requires Fresh(attacker) && Fresh(defender)
    ensures FightRule(attacker, defender).1 <==> Beats(attacker.kind, defender.kind)
    ensures Beats(attacker.kind, defender.kind) ==> FightRule(attacker, defender).0 == Spawn(attacker.kind)
    ensures !Beats(attacker.kind, defender.kind) ==> FightRule(attacker, defender).0 == defender
  {
    EffectivenessIsCycle(attacker.kind, defender.kind);
  }

  /** Health and damage are 100 after every fight: the damage is 0 or 100, and death resets. */
  lemma FightKeepsFresh(attacker: Rps, defender: Rps)
    requires Fresh(attacker) && Fresh(defender)
    ensures Fresh(FightRule(attacker, defender).0)
  {
    FightOutcome(attacker, defender);
  }

  /** The `Fighter` contract for rock-paper-scissors. */
  const Rules: Battle.Fighter<Rps> := Battle.Fighter(
    (a: Rps, d: Rps) => a.kind != d.kind,
    (a: Rps, d: Rps) => Effectiveness(a.kind, d.kind),
    (a: Rps, d: Rps, roll: Battle.Roll) => FightRule(a, d))

  /** Under the weakest strategy an attacker picks a neighbour it beats whenever it has one. */
  lemma WeakestPicksBeatenNeighbour(cells: seq<Rps>, size: Grid.Size, origin: Grid.Location, k: nat)
    requires size.0 > 0 && size.1 > 0 && k < 4
    requires Grid.Lookup(cells, size.0, origin).Some?
    requires var n := Battle.Neighbours(origin, size)[k];
             Grid.Lookup(cells, size.0, n).Some? &&
             Beats(Grid.Lookup(cells, size.0, origin).value.kind, Grid.Lookup(cells, size.0, n).value.kind)
    ensures var r := Battle.WeakestNeighbour(Rules, cells, size, origin);
            r.Some? && Grid.Lookup(cells, size.0, r.value).Some? &&
            Beats(Grid.Lookup(cells, size.0, origin).value.kind, Grid.Lookup(cells, size.0, r.value).value.kind)
  {
    var a := Grid.Lookup(cells, size.0, origin).value;
    var ns := Battle.Neighbours(origin, size);
    var r := Battle.WeakestNeighbour(Rules, cells, size, origin);
    assert Battle.Qualifies(Rules, cells, size.0, a, false, ns[k]);
    var j :| Battle.IsLastBest(Rules, cells, size.0, a, false, ns, j) && r.value == ns[j];
    EffectivenessIsCycle(a.kind, Grid.Lookup(cells, size.0, ns[k]).value.kind);
    EffectivenessIsCycle(a.kind, Grid.Lookup(cells, size.0, ns[j]).value.kind);
  }

  /** A grid of fresh fighters stays fresh through a whole tick. */
  lemma TickKeepsFresh(size: Grid.Size, s: Battle.Strategy, cells: seq<Rps>, draws: Battle.Draws)
    requires Battle.ValidTick(Battle.Config(Rules, s, size), cells, draws)
    requires forall i :: 0 <= i < |cells| ==> Fresh(cells[i])
    ensures forall i :: 0 <= i < |cells| ==> Fresh(Battle.Tick(Battle.Config(Rules, s, size), cells, draws)[i])
  {
    forall a: Rps, d: Rps, roll: Battle.Roll | Fresh(a) && Fresh(d)
      ensures Fresh(Rules.fight(a, d, roll).0)
    {
      FightKeepsFresh(a, d);
    }
    Battle.TickPreserves(Battle.Config(Rules, s, size), cells, draws, Fresh);
  }

  // ---------------------------------------------------------------------------------------------
  // The struct, updated in place

  class RpsFighter {
    var health: int
    var damage: int
    var kind: Kind

    function Value(): Rps
      reads this
    {
      Rps(health, damage, kind)
    }

    constructor (kind: Kind)
      ensures Value() == Spawn(kind)
    {
      health, damage, this.kind := HEALTH, DAMAGE, kind;
    }

    method Reset(kind: Kind)
      modifies this
      ensures Value() == Spawn(kind)
    {
      health := HEALTH;
      damage := DAMAGE;
      this.kind := kind;
    }

    method TakeDamage(amount: int) returns (dead: bool)
      modifies this
      ensures (Value(), dead) == AfterDamage(old(Value()), amount)
    {
      health := health - amount;
      dead := health <= 0;
    }

    /** `fight`: only the defender changes. */
    method Fight(defender: RpsFighter) returns (dead: bool)
      requires defender != this
      modifies defender
      ensures (defender.Value(), dead) == FightRule(Value(), old(defender.Value()))
    {
      var effectiveness := Effectiveness(kind, defender.kind);
      var amount := TruncDiv(damage * effectiveness, 100);
      dead := defender.TakeDamage(amount);
      if dead {
        defender.Reset(kind);
      }
    }
  }
}
