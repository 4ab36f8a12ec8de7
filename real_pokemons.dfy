/** The real-pokemon rules: pokemon with names, one or two types and six base stats duel by
    alternating strikes until one of two hit-point counters drops below zero. */
module RealPokemons {
  import opened Prelude
  import Pokemon
  import Grid
  import Battle

  /** The fields of a `RealPokemon`. */
  datatype RealPokemon = RealPokemon(
    name: string,
    type1: Pokemon.Kind,
    type2: Option<Pokemon.Kind>,
    hp: int,
    attack: int,
    defense: int,
    spAttack: int,
    spDefense: int,
    speed: int)

  /** The stats every division of the damage formula needs: none negative, both defences positive.
      Under them Rust's truncating `/` is Dafny's `/`. */
  predicate WellFormed(p: RealPokemon)
  {
    p.hp >= 0 && p.attack >= 0 && p.defense > 0 && p.spAttack >= 0 && p.spDefense > 0 && p.speed >= 0
  }

  /** A pokemon that can take part in a fight. */
  type Battler = p: RealPokemon | WellFormed(p)
    witness RealPokemon("", Pokemon.Normal, None, 0, 0, 1, 0, 1, 0)

  /** The products of two type-chart multipliers, or of one and 100. */
  const DUAL_MULTIPLIERS: set<int> := {0, 2500, 5000, 10000, 20000, 40000}

  /** `get_effectiveness`: the attacker's first type against the defender's first type, times the
      same against its second type, or times 100 when it has none. */
  function Effectiveness(attacker: RealPokemon, defender: RealPokemon): (e: int)
    ensures e in DUAL_MULTIPLIERS
  {
    var second := match defender.type2
      case Some(t) => Pokemon.Effectiveness(attacker.type1, t)
      case None => 100;
    var first := Pokemon.Effectiveness(attacker.type1, defender.type1);
    assert first in Pokemon.MULTIPLIERS && second in Pokemon.MULTIPLIERS;
    first * second
  }

  /** The larger of the physical and the special attack-to-defence ratio, in thousandths. */
  function AttackDefense(attacker: Battler, defender: Battler): (ad: int)
    ensures ad >= 0
    ensures ad >= 1000 * attacker.attack / defender.defense
    ensures ad >= 1000 * attacker.spAttack / defender.spDefense
  {
    var physical := 1000 * attacker.attack / defender.defense;
    var special := 1000 * attacker.spAttack / defender.spDefense;
    if physical >= special then physical else special
  }

  /** The damage of one strike by the free `fight` helper: a level 5, power 40 move, scaled by the
      dual effectiveness; at least 2 whatever the stats. */
  function Damage(attacker: Battler, defender: Battler): (damage: int)
    ensures damage >= 2
  {
    var scaled := 4 * 40 * AttackDefense(attacker, defender) / 50000;
    var e := Effectiveness(attacker, defender);
    assert scaled * e >= 0 by {
      assert e >= 0;
    }
    scaled * e / 10000 + 2
  }

  /** The free `fight` helper on the counter it lowers: `*defender_hp -= damage`. */
  method Strike(attacker: Battler, defender: Battler, hp: int) returns (after: int)
    ensures after == hp - Damage(attacker, defender)
    ensures after <= hp - 2
  {
    var ad := AttackDefense(attacker, defender);
    var e := Effectiveness(attacker, defender);
    var damage := 4 * 40 * ad / 50000 * e / 10000 + 2;
    after := hp - damage;
  }

  /** The strike loop from the counters `(attackerHp, defenderHp)`, attacker's turn first, when each
      of the attacker's strikes deals `toDefender` and each of the defender's strikes `toAttacker`:
      the counters it exits with. */
  function Exchange(attackerHp: int, defenderHp: int, toDefender: nat, toAttacker: nat): (r: (int, int))
    requires toDefender > 0 && toAttacker > 0
    ensures r.0 < 0 || r.1 < 0
    decreases attackerHp + defenderHp
  {
    if attackerHp < 0 || defenderHp < 0 then (attackerHp, defenderHp)
    else
      var hit := defenderHp - toDefender;
      if attackerHp < 0 || hit < 0 then (attackerHp, hit)
      else Exchange(attackerHp - toAttacker, hit, toDefender, toAttacker)
  }

  /** The attacker's counter after the opening strike the defender gets when it is strictly faster. */
  function Opening(attacker: Battler, defender: Battler): (hp: int)
    ensures hp <= attacker.hp
    ensures defender.speed > attacker.speed <==> hp < attacker.hp
  {
    if defender.speed > attacker.speed then attacker.hp - Damage(defender, attacker) else attacker.hp
  }

  /** The `Fighter` impl's `fight` on values: both counters start at the attacker's `hp`; the
      defender dies when its counter ends below zero and is then replaced by a copy of the attacker. */
  function FightRule(attacker: Battler, defender: Battler): (Battler, bool)
  {
    var (_, defenderHp) := Exchange(Opening(attacker, defender), attacker.hp,
                                    Damage(attacker, defender), Damage(defender, attacker));
    if defenderHp < 0 then (attacker, true) else (defender, false)
  }

  /** The number of strikes of `damage` that take a counter `hp` below zero. */
  function StrikesNeeded(hp: nat, damage: nat): (k: nat)
    requires damage > 0
  {
    hp / damage + 1
  }

  /** `StrikesNeeded` is the least number of strikes that takes the counter below zero. */
  lemma StrikesNeededIsLeast(hp: nat, damage: nat)
    requires damage > 0
    ensures hp - StrikesNeeded(hp, damage) * damage < 0
    ensures hp - (StrikesNeeded(hp, damage) - 1) * damage >= 0
  {
    var q, r := hp / damage, hp % damage;
    assert hp == q * damage + r;
    assert StrikesNeeded(hp, damage) * damage == q * damage + damage;
  }

  lemma StrikesNeededStep(hp: nat, damage: nat)
    requires 0 < damage <= hp
    ensures StrikesNeeded(hp - damage, damage) == StrikesNeeded(hp, damage) - 1
  {
    var q, r := (hp - damage) / damage, (hp - damage) % damage;
    assert hp == (q + 1) * damage + r;
    Battle.DivModUnique(hp, damage, q + 1, r);
  }

  /** From non-negative counters with the attacker to strike, the defender's counter ends below zero
      exactly when the attacker needs no more strikes than the defender does. */
  lemma {:induction false} ExchangeWinner(attackerHp: nat, defenderHp: nat, toDefender: nat, toAttacker: nat)
    requires toDefender > 0 && toAttacker > 0
    ensures Exchange(attackerHp, defenderHp, toDefender, toAttacker).1 < 0 <==>
            StrikesNeeded(defenderHp, toDefender) <= StrikesNeeded(attackerHp, toAttacker)
    decreases attackerHp + defenderHp
  {
    if defenderHp >= toDefender && attackerHp >= toAttacker {
      ExchangeWinner(attackerHp - toAttacker, defenderHp - toDefender, toDefender, toAttacker);
      StrikesNeededStep(defenderHp, toDefender);
      StrikesNeededStep(attackerHp, toAttacker);
    } else if defenderHp >= toDefender {
      assert StrikesNeeded(attackerHp, toAttacker) == 1;
      assert StrikesNeeded(defenderHp, toDefender) >= 2;
    } else {
      assert StrikesNeeded(defenderHp, toDefender) == 1;
    }
  }

  /** Who wins, in closed form: with `hp` the attacker's hit points, the defender falls exactly when
      the attacker needs no more strikes on a counter of `hp` than the defender does, or strictly fewer
      when the defender is faster and so strikes first. */
  lemma FightWinner(attacker: Battler, defender: Battler)
    ensures var ka := StrikesNeeded(attacker.hp, Damage(attacker, defender));
            var kd := StrikesNeeded(attacker.hp, Damage(defender, attacker));
            FightRule(attacker, defender).1 <==>
              if defender.speed > attacker.speed then ka < kd else ka <= kd
  {
    var da, dd := Damage(attacker, defender), Damage(defender, attacker);
    assert FightRule(attacker, defender).1 <==> Exchange(Opening(attacker, defender), attacker.hp, da, dd).1 < 0;
    if defender.speed > attacker.speed {
      assert Opening(attacker, defender) == attacker.hp - dd;
      OpeningStrikeWinner(attacker.hp, da, dd);
    } else {
      ExchangeWinner(attacker.hp, attacker.hp, da, dd);
    }
  }

  /** After an opening strike by the defender on a counter of `hp`, the attacker needs strictly fewer
      strikes than the defender in all. */
  lemma OpeningStrikeWinner(hp: nat, toDefender: nat, toAttacker: nat)
    requires toDefender > 0 && toAttacker > 0
    ensures Exchange(hp - toAttacker, hp, toDefender, toAttacker).1 < 0 <==>
            StrikesNeeded(hp, toDefender) < StrikesNeeded(hp, toAttacker)
  {
    if hp >= toAttacker {
      ExchangeWinner(hp - toAttacker, hp, toDefender, toAttacker);
      StrikesNeededStep(hp, toAttacker);
    } else {
      assert StrikesNeeded(hp, toAttacker) == 1;
    }
  }

  /** On a speed tie the attacker strikes first, so a mirror match is always won by the attacker. */
  lemma MirrorMatchWonByAttacker(attacker: Battler, defender: Battler)
    requires defender == attacker.(name := defender.name)
    ensures FightRule(attacker, defender) == (attacker, true)
  {
    assert Damage(attacker, defender) == Damage(defender, attacker);
    FightWinner(attacker, defender);
  }

  /** The defender's own hit points play no part: both counters start from the attacker's. */
  lemma DefenderHpIgnored(attacker: Battler, defender: Battler, hp: nat)
    ensures FightRule(attacker, defender.(hp := hp)).1 == FightRule(attacker, defender).1
  {
    var other := defender.(hp := hp);
    assert Damage(attacker, other) == Damage(attacker, defender);
    assert Damage(other, attacker) == Damage(defender, attacker);
  }

  /** A fallen defender becomes exactly the attacker; a standing one is left as it was. */
  lemma FightOutcome(attacker: Battler, defender: Battler)
    ensures FightRule(attacker, defender).1 ==> FightRule(attacker, defender).0 == attacker
    ensures !FightRule(attacker, defender).1 ==> FightRule(attacker, defender).0 == defender
  {
  }

  /** The `Fighter` impl's `fight`: the strike loop over two mutable counters, then the overwrite of
      the defender, returned here as its new value. */
  method Fight(attacker: Battler, defender: Battler) returns (next: Battler, dead: bool)
    ensures (next, dead) == FightRule(attacker, defender)
  {
    var attackerHp := attacker.hp;
    var defenderHp := attacker.hp;
    if defender.speed > attacker.speed {
      attackerHp := Strike(defender, attacker, attackerHp);
    }
    ghost var toDefender, toAttacker := Damage(attacker, defender), Damage(defender, attacker);
    ghost var outcome := Exchange(attackerHp, defenderHp, toDefender, toAttacker);
    while true
      invariant Exchange(attackerHp, defenderHp, toDefender, toAttacker) == outcome
      decreases attackerHp + defenderHp
    {
      if attackerHp < 0 || defenderHp < 0 {
        break;
      }
      defenderHp := Strike(attacker, defender, defenderHp);
      if attackerHp < 0 || defenderHp < 0 {
        break;
      }
      attackerHp := Strike(defender, attacker, attackerHp);
    }
    if defenderHp < 0 {
      next, dead := attacker, true;
    } else {
      next, dead := defender, false;
    }
  }

  /** The `Fighter` contract for real pokemon: pokemon fight unless they share a name. */
  const Rules: Battle.Fighter<Battler> := Battle.Fighter(
    (a: Battler, d: Battler) => a.name != d.name,
    (a: Battler, d: Battler) => Effectiveness(a, d),
    (a: Battler, d: Battler, roll: Battle.Roll) => FightRule(a, d))

  /** Conversion only copies: if every cell holds a pokemon of a roster, so does every cell after a
      tick. */
  lemma TickKeepsRoster(size: Grid.Size, s: Battle.Strategy, cells: seq<Battler>, draws: Battle.Draws, roster: set<Battler>)
    requires Battle.ValidTick(Battle.Config(Rules, s, size), cells, draws)
    requires forall i :: 0 <= i < |cells| ==> cells[i] in roster
    ensures var next := Battle.Tick(Battle.Config(Rules, s, size), cells, draws);
            forall i :: 0 <= i < |next| ==> next[i] in roster
  {
    var P := (p: Battler) => p in roster;
    forall a: Battler, d: Battler, roll: Battle.Roll | P(a) && P(d)
      ensures P(Rules.fight(a, d, roll).0)
    {
      FightOutcome(a, d);
    }
    Battle.TickPreserves(Battle.Config(Rules, s, size), cells, draws, P);
  }

  // ---------------------------------------------------------------------------------------------
  // Records of the pokedex, once decoded

  datatype BaseJson = BaseJson(hp: int, attack: int, defense: int, spAttack: int, spDefense: int, speed: int)

  datatype PokemonJson = PokemonJson(name: string, types: seq<Pokemon.Kind>, base: Option<BaseJson>)

  /** `map_pokemon`: a record becomes a pokemon exactly when it has base stats and at least one type;
      the first type is the primary one, the second, if any, the secondary one, and name and stats
      are copied over. */
  function MapPokemon(json: PokemonJson): (r: Option<RealPokemon>)
    ensures r.Some? <==> json.base.Some? && |json.types| > 0
    ensures r.Some? ==>
              var p, b := r.value, json.base.value;
              && p.name == json.name && p.type1 == json.types[0]
              && (p.type2.Some? <==> |json.types| > 1)
              && (p.type2.Some? ==> p.type2.value == json.types[1])
              && (p.hp, p.attack, p.defense, p.spAttack, p.spDefense, p.speed)
                 == (b.hp, b.attack, b.defense, b.spAttack, b.spDefense, b.speed)
  {
    match json.base
    case None => None
    case Some(base) =>
      if |json.types| == 0 then None
      else
        Some(RealPokemon(
          json.name, json.types[0], if |json.types| > 1 then Some(json.types[1]) else None,
          base.hp, base.attack, base.defense, base.spAttack, base.spDefense, base.speed))
  }
}
