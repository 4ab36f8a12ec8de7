/** The pokemon rules: an 18 by 18 type chart of damage multipliers, health 80 and damage 40. */
module Pokemon {
  import opened Prelude
  import opened Tables
  import Grid
  import Battle

  /** The eighteen pokemon types, in declaration order. */
  datatype Kind =
      Normal
    | Fire
    | Water
    | Electric
    | Grass
    | Ice
    | Fighting
    | Poison
    | Ground
    | Flying
    | Psychic
    | Bug
    | Rock
    | Ghost
    | Dragon
    | Dark
    | Steel
    | Fairy

  const COUNT: nat := 18

  /** The discriminant of a type (`kind as usize`). */
  function Repr(k: Kind): (i: nat)
    ensures i < COUNT
  {
    match k
    case Normal => 0
    case Fire => 1
    case Water => 2
    case Electric => 3
    case Grass => 4
    case Ice => 5
    case Fighting => 6
    case Poison => 7
    case Ground => 8
    case Flying => 9
    case Psychic => 10
    case Bug => 11
    case Rock => 12
    case Ghost => 13
    case Dragon => 14
    case Dark => 15
    case Steel => 16
    case Fairy => 17
  }

  /** `from_repr`: the type with that discriminant, if there is one. */
  function FromRepr(i: nat): Option<Kind>
  {
    match i
    case 0 => Some(Normal)
    case 1 => Some(Fire)
    case 2 => Some(Water)
    case 3 => Some(Electric)
    case 4 => Some(Grass)
    case 5 => Some(Ice)
    case 6 => Some(Fighting)
    case 7 => Some(Poison)
    case 8 => Some(Ground)
    case 9 => Some(Flying)
    case 10 => Some(Psychic)
    case 11 => Some(Bug)
    case 12 => Some(Rock)
    case 13 => Some(Ghost)
    case 14 => Some(Dragon)
    case 15 => Some(Dark)
    case 16 => Some(Steel)
    case 17 => Some(Fairy)
    case _ => None
  }

  /** `from_repr` inverts the discriminant, and is defined exactly below `COUNT`. */
  lemma FromReprRepr(k: Kind)
    ensures FromRepr(Repr(k)) == Some(k)
  {
  }

  lemma ReprFromRepr(i: nat)
    ensures FromRepr(i).Some? <==> i < COUNT
    ensures FromRepr(i).Some? ==> Repr(FromRepr(i).value) == i
  {
  }

  /** The unit test of `from_repr`: 0 is Normal and 17 is Fairy. */
  lemma FromReprTest()
    ensures FromRepr(0) == Some(Normal) && FromRepr(17) == Some(Fairy)
  {
  }

  // ---------------------------------------------------------------------------------------------
  // The type chart: row = attacking type, column = defending type, in percent

  const ROW_NORMAL: seq<int> := [100, 100, 100, 100, 100, 100, 100, 100, 100, 100, 100, 100,  50,   0, 100, 100,  50, 100]
  const ROW_FIRE: seq<int> := [100,  50,  50, 100, 200, 200, 100, 100, 100, 100, 100, 200,  50, 100,  50, 100, 200, 100]
  const ROW_WATER: seq<int> := [100, 200,  50, 100,  50, 100, 100, 100, 200, 100, 100, 100, 200, 100,  50, 100, 100, 100]
  const ROW_ELECTRIC: seq<int> := [100, 100, 200,  50,  50, 100, 100, 100,   0, 200, 100, 100, 100, 100,  50, 100, 100, 100]
  const ROW_GRASS: seq<int> := [100,  50, 200, 100,  50, 100, 100,  50, 200,  50, 100,  50, 200, 100,  50, 100,  50, 100]
  const ROW_ICE: seq<int> := [100,  50,  50, 100, 200,  50, 100, 100, 200, 200, 100, 100, 100, 100, 200, 100,  50, 100]
  const ROW_FIGHTING: seq<int> := [200, 100, 100, 100, 100, 200, 100,  50, 100,  50,  50,  50, 200,   0, 100, 200, 200,  50]
  const ROW_POISON: seq<int> := [100, 100, 100, 100, 200, 100, 100,  50,  50, 100, 100, 100,  50,  50, 100, 100,   0, 200]
  const ROW_GROUND: seq<int> := [100, 200, 100, 200,  50, 100, 100, 200, 100,   0, 100,  50, 200, 100, 100, 100, 200, 100]
  const ROW_FLYING: seq<int> := [100, 100, 100,  50, 200, 100, 200, 100, 100, 100, 100, 200,  50, 100, 100, 100,  50, 100]
  const ROW_PSYCHIC: seq<int> := [100, 100, 100, 100, 100, 100, 200, 200, 100, 100,  50, 100, 100, 100, 100,   0,  50, 100]
  const ROW_BUG: seq<int> := [100,  50, 100, 100, 200, 100,  50,  50, 100,  50, 200, 100, 100,  50, 100, 200,  50,  50]
  const ROW_ROCK: seq<int> := [100, 200, 100, 100, 100, 200,  50, 100,  50, 200, 100, 200, 100, 100, 100, 100,  50, 100]
  const ROW_GHOST: seq<int> := [  0, 100, 100, 100, 100, 100, 100, 100, 100, 100, 200, 100, 100, 200, 100,  50, 100, 100]
  const ROW_DRAGON: seq<int> := [100, 100, 100, 100, 100, 100, 100, 100, 100, 100, 100, 100, 100, 100, 200, 100,  50,   0]
  const ROW_DARK: seq<int> := [100, 100, 100, 100, 100, 100,  50, 100, 100, 100, 200, 100, 100, 200, 100,  50, 100,  50]
  const ROW_STEEL: seq<int> := [100,  50,  50,  50, 100, 200, 100, 100, 100, 100, 100, 100, 200, 100, 100, 100,  50, 200]
  const ROW_FAIRY: seq<int> := [100,  50, 100, 100, 100, 100, 200,  50, 100, 100, 100, 100, 100, 100, 200, 200,  50, 100]

  const EFFICIENCY: seq<seq<int>> := [
    ROW_NORMAL,
    ROW_FIRE,
    ROW_WATER,
    ROW_ELECTRIC,
    ROW_GRASS,
    ROW_ICE,
    ROW_FIGHTING,
    ROW_POISON,
    ROW_GROUND,
    ROW_FLYING,
    ROW_PSYCHIC,
    ROW_BUG,
    ROW_ROCK,
    ROW_GHOST,
    ROW_DRAGON,
    ROW_DARK,
    ROW_STEEL,
    ROW_FAIRY
  ]

  /** The multipliers the chart uses: immune, not very effective, neutral, super effective. */
  const MULTIPLIERS: set<int> := {0, 50, 100, 200}

  /** A row of the chart: one entry per defending type, each one of the multipliers. */
  predicate ChartRow(row: seq<int>)
  {
    |row| == COUNT && RowWithin(row, MULTIPLIERS)
  }

  lemma ChartRowsNormalToGround()
    ensures ChartRow(ROW_NORMAL) && ChartRow(ROW_FIRE)
    ensures ChartRow(ROW_WATER) && ChartRow(ROW_ELECTRIC)
    ensures ChartRow(ROW_GRASS) && ChartRow(ROW_ICE)
    ensures ChartRow(ROW_FIGHTING) && ChartRow(ROW_POISON)
    ensures ChartRow(ROW_GROUND)
  {
    assert ChartRow(ROW_NORMAL);
    assert ChartRow(ROW_FIRE);
    assert ChartRow(ROW_WATER);
    assert ChartRow(ROW_ELECTRIC);
    assert ChartRow(ROW_GRASS);
    assert ChartRow(ROW_ICE);
    assert ChartRow(ROW_FIGHTING);
    assert ChartRow(ROW_POISON);
    assert ChartRow(ROW_GROUND);
  }

  lemma ChartRowsFlyingToFairy()
    ensures ChartRow(ROW_FLYING) && ChartRow(ROW_PSYCHIC)
    ensures ChartRow(ROW_BUG) && ChartRow(ROW_ROCK)
    ensures ChartRow(ROW_GHOST) && ChartRow(ROW_DRAGON)
    ensures ChartRow(ROW_DARK) && ChartRow(ROW_STEEL)
    ensures ChartRow(ROW_FAIRY)
  {
    assert ChartRow(ROW_FLYING);
    assert ChartRow(ROW_PSYCHIC);
    assert ChartRow(ROW_BUG);
    assert ChartRow(ROW_ROCK);
    assert ChartRow(ROW_GHOST);
    assert ChartRow(ROW_DRAGON);
    assert ChartRow(ROW_DARK);
    assert ChartRow(ROW_STEEL);
    assert ChartRow(ROW_FAIRY);
  }

  /** The chart is 18 by 18 and every entry is one of the four multipliers. */
  lemma ChartShape()
    ensures SquareWithin(EFFICIENCY, COUNT, MULTIPLIERS)
  {
    ChartRowsNormalToGround();
    ChartRowsFlyingToFairy();
    assert forall row :: row in EFFICIENCY ==> ChartRow(row);
  }

  /** `get_effectiveness`: the chart entry for the attacking and the defending type. */
  function Effectiveness(attacker: Kind, defender: Kind): (e: int)
    ensures e in MULTIPLIERS
  {
    ChartShape();
    EntryWithin(EFFICIENCY, COUNT, MULTIPLIERS, Repr(attacker), Repr(defender));
    EFFICIENCY[Repr(attacker)][Repr(defender)]
  }

  /** The unit test of `get_effectiveness`, and one pair showing that the chart is not symmetric. */
  lemma EffectivenessTest()
    ensures Effectiveness(Normal, Normal) == 100
    ensures Effectiveness(Fire, Steel) == 200
    ensures Effectiveness(Water, Grass) == 50
    ensures Effectiveness(Steel, Fire) == 50
  {
  }

  // ---------------------------------------------------------------------------------------------
  // A fighter

  const HEALTH: int := 80
  const DAMAGE: int := 40

  /** The fields of a `Pokemon`. */
  datatype Pokemon = Pokemon(health: int, damage: int, kind: Kind)

  /** `Pokemon::new`, and the state `reset` leaves behind. */
  function Spawn(kind: Kind): (p: Pokemon)
    ensures Healthy(p) && p.kind == kind
  {
    Pokemon(HEALTH, DAMAGE, kind)
  }

  /** `take_damage` on a value: the health drops by the damage, and the flag says whether it is
      now at or below zero. */
  function AfterDamage(p: Pokemon, damage: int): (Pokemon, bool)
  {
    var q := p.(health := p.health - damage);
    (q, q.health <= 0)
  }

  /** The damage of one attack: the attacker's damage scaled by the chart, in percent. */
  function AttackDamage(attacker: Pokemon, defender: Pokemon): int
  {
    TruncDiv(attacker.damage * Effectiveness(attacker.kind, defender.kind), 100)
  }

  /** `fight` on values: the defender's new state and whether it died. A defender that dies is
      reset to the attacker's type. */
  function FightRule(attacker: Pokemon, defender: Pokemon): (Pokemon, bool)
  {
    var (hit, dead) := AfterDamage(defender, AttackDamage(attacker, defender));
    if dead then (Spawn(attacker.kind), true) else (hit, false)
  }

  /** What one fight does to the defender, in the system's terms. */
  lemma FightOutcome(attacker: Pokemon, defender: Pokemon)
    ensures var (after, dead) := FightRule(attacker, defender);
            && (dead <==> defender.health - AttackDamage(attacker, defender) <= 0)
            && (dead ==> after == Pokemon(HEALTH, DAMAGE, attacker.kind))
            && (!dead ==> after.kind == defender.kind && after.damage == defender.damage
                          && after.health == defender.health - AttackDamage(attacker, defender))
  {
  }

  /** The unit test of `take_damage`: from 80, a hit of 40 leaves it alive and a second kills it. */
  lemma TakeDamageTest()
    ensures var (once, dead1) := AfterDamage(Spawn(Normal), 40);
            && once.health == 40 && !dead1
            && var (twice, dead2) := AfterDamage(once, 40);
               twice.health == 0 && dead2
  {
  }

  /** The unit test of `reset`: a reset fighter takes the new type, dies of 80 and survives 40. */
  lemma ResetTest()
    ensures Spawn(Fire).kind == Fire && AfterDamage(Spawn(Fire), 80).1
    ensures Spawn(Dragon).kind == Dragon && !AfterDamage(Spawn(Dragon), 40).1
  {
  }

  /** The state every fighter on the grid stays in: alive with at most the starting health and the
      starting damage. */
  predicate Healthy(p: Pokemon)
  {
    0 < p.health <= HEALTH && p.damage == DAMAGE
  }

  /** The damage a healthy attacker deals is 0, 20, 40 or 80, so it never heals its target. */
  lemma DamageValues(attacker: Pokemon, defender: Pokemon)
    requires Healthy(attacker)
    ensures AttackDamage(attacker, defender) in {0, 20, 40, 80}
  {
    var e := Effectiveness(attacker.kind, defender.kind);
    assert e in MULTIPLIERS;
  }

  /** A fight between healthy fighters leaves a healthy defender. */
  lemma FightKeepsHealthy(attacker: Pokemon, defender: Pokemon)
    requires Healthy(attacker) && Healthy(defender)
    ensures Healthy(FightRule(attacker, defender).0)
  {
    DamageValues(attacker, defender);
  }

  /** With healthy fighters every intermediate value of `fight` fits in an `i32`, so integer
      arithmetic here is the source's 32-bit arithmetic. */
  lemma FightFitsInI32(attacker: Pokemon, defender: Pokemon)
    requires Healthy(attacker) && Healthy(defender)
    ensures var product := attacker.damage * Effectiveness(attacker.kind, defender.kind);
            -0x8000_0000 <= product < 0x8000_0000
    ensures -0x8000_0000 <= defender.health - AttackDamage(attacker, defender) < 0x8000_0000
  {
    DamageValues(attacker, defender);
  }

  /** The `Fighter` contract for pokemon. */
  const Rules: Battle.Fighter<Pokemon> := Battle.Fighter(
    (a: Pokemon, d: Pokemon) => a.kind != d.kind,
    (a: Pokemon, d: Pokemon) => Effectiveness(a.kind, d.kind),
    (a: Pokemon, d: Pokemon, roll: Battle.Roll) => FightRule(a, d))

  /** Two fighters of one type never fight under a filtered strategy. */
  lemma FilteredNeverPicksSameKind(s: Battle.Strategy, cells: seq<Pokemon>, size: Grid.Size, origin: Grid.Location, choice: nat)
    requires size.0 > 0 && size.1 > 0
    requires s == Battle.WeakestFiltered || s == Battle.RandomFiltered
    requires Battle.Select(s, Rules, cells, size, origin, choice).Some?
    ensures var d := Battle.Select(s, Rules, cells, size, origin, choice).value;
            Grid.Lookup(cells, size.0, d).Some? &&
            Grid.Lookup(cells, size.0, d).value.kind != Grid.Lookup(cells, size.0, origin).value.kind
  {
    Battle.FilteredSelectionShouldFight(s, Rules, cells, size, origin, choice);
  }

  /** A grid of healthy pokemon stays healthy through a whole tick. */
  lemma TickKeepsHealthy(size: Grid.Size, s: Battle.Strategy, cells: seq<Pokemon>, draws: Battle.Draws)
    requires Battle.ValidTick(Battle.Config(Rules, s, size), cells, draws)
    requires forall i :: 0 <= i < |cells| ==> Healthy(cells[i])
    ensures forall i :: 0 <= i < |cells| ==> Healthy(Battle.Tick(Battle.Config(Rules, s, size), cells, draws)[i])
  {
    forall a: Pokemon, d: Pokemon, roll: Battle.Roll | Healthy(a) && Healthy(d)
      ensures Healthy(Rules.fight(a, d, roll).0)
    {
      FightKeepsHealthy(a, d);
    }
    Battle.TickPreserves(Battle.Config(Rules, s, size), cells, draws, Healthy);
  }

  // ---------------------------------------------------------------------------------------------
  // The struct, updated in place

  class PokemonFighter {
    var health: int
    var damage: int
    var kind: Kind

    function Value(): Pokemon
      reads this
    {
      Pokemon(health, damage, kind)
    }

    constructor (kind: Kind)
      ensures Value() == Spawn(kind)
    {
      health, damage, this.kind := HEALTH, DAMAGE, kind;
    }

    method Reset(kind: Kind)
      modifies this
      ensures Value() == Spawn(kind)
    {
      health := HEALTH;
      damage := DAMAGE;
      this.kind := kind;
    }

    method TakeDamage(amount: int) returns (dead: bool)
      modifies this
      ensures (Value(), dead) == AfterDamage(old(Value()), amount)
    {
      health := health - amount;
      dead := health <= 0;
    }

    /** `fight`: only the defender changes. */
    method Fight(defender: PokemonFighter) returns (dead: bool)
      requires defender != this
      modifies defender
      ensures (defender.Value(), dead) == FightRule(Value(), old(defender.Value()))
    {
      var effectiveness := Effectiveness(kind, defender.kind);
      var amount := TruncDiv(damage * effectiveness, 100);
      dead := defender.TakeDamage(amount);
      if dead {
        defender.Reset(kind);
      }
    }
  }
}
