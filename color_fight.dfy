/** The colour-fight rules: a fighter is an RGB colour, an attack subtracts the attacker's colour
    channel by channel, saturating at 0, and a fighter with an exhausted channel is taken over. */
module ColorFight {
  import Grid
  import Battle

  /** A `u8` channel. */
  type Byte = b: int | 0 <= b < 256

  /** The `[u8; 3]` colour of a `ColorFighter`, which is its whole state. */
  type Rgb = c: seq<Byte> | |c| == 3 witness [0, 0, 0]

  /** `ColorFighter::new`: black. */
  const BLACK: Rgb := [0, 0, 0]

  /** One channel of `take_damage`: `c - a` when `a < c`, otherwise 0. */
  function Sat(c: Byte, a: Byte): (r: Byte)
    ensures r <= c
    ensures r == 0 <==> c <= a
    ensures r > 0 ==> r + a == c
  {
    if a < c then c - a else 0
  }

  /** The colour `take_damage` leaves behind. */
  function Damaged(c: Rgb, a: Rgb): (r: Rgb)
  {
    [Sat(c[0], a[0]), Sat(c[1], a[1]), Sat(c[2], a[2])]
  }

  predicate AnyZero(c: Rgb)
  {
    exists i :: 0 <= i < 3 && c[i] == 0
  }

  /** `take_damage` on a value: the new colour and whether some channel is now 0. */
  function TakeDamageRule(c: Rgb, a: Rgb): (Rgb, bool)
  {
    var r := Damaged(c, a);
    (r, AnyZero(r))
  }

  /** `should_fight`: some channel of the attacker is at least the defender's. */
  predicate ShouldFightRule(attacker: Rgb, defender: Rgb)
  {
    exists i :: 0 <= i < 3 && attacker[i] >= defender[i]
  }

  /** `get_effectiveness`: every target ranks the same. */
  function Effectiveness(attacker: Rgb, defender: Rgb): (e: int)
    ensures e == 1
  {
    1
  }

  /** `fight` on values: the defender's new colour and whether it died. */
  function FightRule(attacker: Rgb, defender: Rgb): (Rgb, bool)
  {
    var (hit, dead) := TakeDamageRule(defender, attacker);
    if dead then (attacker, true) else (hit, false)
  }

  /** `take_damage` lowers no channel below 0, raises none, and leaves each channel either at 0,
      when the attack's channel was at least as large, or at its old value minus the attack's. */
  lemma TakeDamageChannels(c: Rgb, a: Rgb, i: nat)
    requires i < 3
    ensures 0 <= TakeDamageRule(c, a).0[i] <= c[i]
    ensures TakeDamageRule(c, a).0[i] == 0 <==> a[i] >= c[i]
    ensures a[i] < c[i] ==> TakeDamageRule(c, a).0[i] == c[i] - a[i]
  {
  }

  /** `take_damage` reports death exactly when some channel of the attack reaches the colour's. */
  lemma TakeDamageDeath(c: Rgb, a: Rgb)
    ensures TakeDamageRule(c, a).1 <==> exists i :: 0 <= i < 3 && a[i] >= c[i]
  {
    var r := Damaged(c, a);
    if TakeDamageRule(c, a).1 {
      var i :| 0 <= i < 3 && r[i] == 0;
      TakeDamageChannels(c, a, i);
    } else {
      forall i | 0 <= i < 3
        ensures a[i] < c[i]
      {
        TakeDamageChannels(c, a, i);
      }
    }
  }

  /** A colour fighter wants to fight exactly the defenders one attack kills. */
  lemma ShouldFightIffKills(attacker: Rgb, defender: Rgb)
    ensures ShouldFightRule(attacker, defender) <==> FightRule(attacker, defender).1
  {
    TakeDamageDeath(defender, attacker);
  }

  /** A killed defender takes exactly the attacker's colour; a surviving one keeps every channel
      positive, each lowered by the attacker's channel. */
  lemma FightOutcome(attacker: Rgb, defender: Rgb)
    ensures FightRule(attacker, defender).1 ==> FightRule(attacker, defender).0 == attacker
    ensures !FightRule(attacker, defender).1 ==>
              forall i :: 0 <= i < 3 ==>
                0 < FightRule(attacker, defender).0[i] == defender[i] - attacker[i]
  {
    TakeDamageDeath(defender, attacker);
  }

  /** A freshly made, black fighter dies to any attack and turns into the attacker. */
  lemma BlackAlwaysFalls(attacker: Rgb)
    ensures FightRule(attacker, BLACK) == (attacker, true)
  {
    assert Damaged(BLACK, attacker)[0] == 0;
  }

  /** Channel-wise at most `ceiling`. */
  predicate Below(c: Rgb, ceiling: Rgb)
  {
    forall i :: 0 <= i < 3 ==> c[i] <= ceiling[i]
  }

  /** The `Fighter` contract for colour fight. */
  const Rules: Battle.Fighter<Rgb> := Battle.Fighter(
    (a: Rgb, d: Rgb) => ShouldFightRule(a, d),
    (a: Rgb, d: Rgb) => Effectiveness(a, d),
    (a: Rgb, d: Rgb, roll: Battle.Roll) => FightRule(a, d))

  /** No colour brightens in a tick: a grid that is channel-wise below a ceiling stays below it,
      since a survivor only loses and a loser copies an attacker already below it. */
  lemma TickKeepsCeiling(size: Grid.Size, s: Battle.Strategy, cells: seq<Rgb>, draws: Battle.Draws, ceiling: Rgb)
    requires Battle.ValidTick(Battle.Config(Rules, s, size), cells, draws)
    requires forall i :: 0 <= i < |cells| ==> Below(cells[i], ceiling)
    ensures var next := Battle.Tick(Battle.Config(Rules, s, size), cells, draws);
            forall i :: 0 <= i < |next| ==> Below(next[i], ceiling)
  {
    var P := (c: Rgb) => Below(c, ceiling);
    forall a: Rgb, d: Rgb, roll: Battle.Roll | P(a) && P(d)
      ensures P(Rules.fight(a, d, roll).0)
    {
      forall i | 0 <= i < 3
        ensures Rules.fight(a, d, roll).0[i] <= ceiling[i]
      {
        TakeDamageChannels(d, a, i);
      }
    }
    Battle.TickPreserves(Battle.Config(Rules, s, size), cells, draws, P);
  }

  /** Under either filtered strategy a selected target always dies to the attack. */
  lemma FilteredSelectionKills(s: Battle.Strategy, cells: seq<Rgb>, size: Grid.Size, origin: Grid.Location, choice: nat)
    requires size.0 > 0 && size.1 > 0
    requires s == Battle.WeakestFiltered || s == Battle.RandomFiltered
    requires Battle.Select(s, Rules, cells, size, origin, choice).Some?
    ensures Grid.Lookup(cells, size.0, origin).Some?
    ensures var d := Battle.Select(s, Rules, cells, size, origin, choice).value;
            Grid.Lookup(cells, size.0, d).Some? &&
            FightRule(Grid.Lookup(cells, size.0, origin).value, Grid.Lookup(cells, size.0, d).value).1
  {
    Battle.FilteredSelectionShouldFight(s, Rules, cells, size, origin, choice);
    var d := Battle.Select(s, Rules, cells, size, origin, choice).value;
    ShouldFightIffKills(Grid.Lookup(cells, size.0, origin).value, Grid.Lookup(cells, size.0, d).value);
  }

  // ---------------------------------------------------------------------------------------------
  // The struct, with its colour array updated in place

  class ColorFighter {
    const color: array<Byte>

    ghost predicate Valid()
    {
      color.Length == 3
    }

    function Value(): Rgb
      requires Valid()
      reads color
    {
      color[..]
    }

    /** `new`: black. */
    constructor ()
      ensures Valid() && fresh(color)
      ensures Value() == BLACK
    {
      color := new Byte[3](_ => 0);
    }

    /** `reset`: copy the given colour. */
    method Reset(c: Rgb)
      requires Valid()
      modifies color
      ensures Value() == c
    {
      color[0], color[1], color[2] := c[0], c[1], c[2];
    }

    /** `take_damage`: subtract channel by channel, saturating at 0, then report whether some
        channel is 0. */
    method TakeDamage(a: Rgb) returns (dead: bool)
      requires Valid()
      modifies color
      ensures (Value(), dead) == TakeDamageRule(old(Value()), a)
    {
      ghost var before := color[..];
      for i := 0 to 3
        invariant color[..i] == Damaged(before, a)[..i]
        invariant color[i..] == before[i..]
      {
        if a[i] < color[i] {
          color[i] := color[i] - a[i];
        } else {
          color[i] := 0;
        }
        assert color[..i + 1] == color[..i] + [color[i]];
      }
      assert color[..] == color[..3] == Damaged(before, a);
      dead := false;
      var i := 0;
      while i < 3 && !dead
        invariant 0 <= i <= 3
        invariant dead <==> exists j :: 0 <= j < i && color[j] == 0
      {
        if color[i] == 0 {
          dead := true;
        }
        i := i + 1;
      }
      assert dead <==> exists j :: 0 <= j < 3 && color[..][j] == 0;
    }

    /** `should_fight`: the loop over the channels with its early return. */
    method ShouldFight(defender: ColorFighter) returns (b: bool)
      requires Valid() && defender.Valid()
      ensures b == ShouldFightRule(Value(), defender.Value())
    {
      for i := 0 to 3
        invariant forall j :: 0 <= j < i ==> color[j] < defender.color[j]
      {
        if color[i] >= defender.color[i] {
          return true;
        }
      }
      return false;
    }

    /** `fight`: only the defender's colour changes. */
    method Fight(defender: ColorFighter) returns (dead: bool)
      requires Valid() && defender.Valid() && defender.color != color
      modifies defender.color
      ensures Value() == old(Value())
      ensures (defender.Value(), dead) == FightRule(Value(), old(defender.Value()))
    {
      var _ := Effectiveness(Value(), defender.Value());
      dead := defender.TakeDamage(color[..]);
      if dead {
        defender.Reset(color[..]);
      }
    }
  }
}
