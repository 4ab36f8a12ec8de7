# poke-fighting-rust, modelled in Dafny

poke-fighting-rust runs a territory-spread battle on a wrapped (torus) grid of fighters. In each
tick the fighters of the grid are visited in a pseudo-random order: the start index is random and
the traversal advances by a prime offset modulo the cell count until it comes back to the start.
Each visited fighter chooses one of its four neighbours with the configured selection strategy and
fights it. A defender that loses is replaced by a copy of the attacker's kind, so kinds spread.

Five rule sets plug into the engine through the `Fighter` contract:

- pokemon: an 18 by 18 type chart of damage multipliers;
- rock-paper-scissors: a cyclic 3 by 3 win table;
- street fighter: a 39 by 39 chart of win chances, settled by a die roll;
- colour fight: RGB colours subtracted channel by channel;
- real pokemon: named pokemon with one or two types and six stats, who duel by alternating strikes.

The model is split into these modules:

- `Grid`: the flat row-major buffer `Grid2D` and its paired mutable access.
- `Battle`: the strategies and the tick.
  - The torus neighbours and the four selection strategies. Weakest and random, each optionally
    filtered by `should_fight`, written as the `filter_map` / `filter` / `max_by_key` / `choose`
    pipelines.
  - `Battle::fight`, and the tick `action`, as a value-level specification (`Step`, `Run`, `Tick`).
  - The `Battle` class, whose `Action` method runs the source's loop over the grid's array and is
    proved equal to `Tick`.
- `Pokemon`, `Rps`, `StreetFighter`, `ColorFight`, `RealPokemons`: the rule sets.
  - Each as pure rules on values, with rule-level properties and a tick-level invariant obtained from
    `Battle.TickPreserves`.
  - Pokemon, rock-paper-scissors, street fighter and colour fight also as a class whose methods
    update the fighter's fields in place, proved equal to the rules. Real pokemon's `fight`
    replaces the whole defender, so it is a method that returns the defender's new value.
- `Types`: parsing and printing of the fighter-kind names.
- `Prelude` and `Tables`: `Option`/`Result`, Rust's truncating division, and a lemma about tables.

Randomness is turned into inputs:

- A tick receives a `Draws` value with the start index, the index into the table of primes, and,
  for the k-th attacker, the random strategy's choice index and the fight's die roll (0..=100).
- The generators that fill a grid are a function from cell index to fighter.

## Model

| member | source | states |
|---|---|---|
| Grid.Lookup | src/grid.rs:25-27 | a cell is found exactly when the linear index `y * width + x` is inside the buffer, and then it is that slot |
| Grid.LookupInBounds | src/grid.rs:25-27 | every location inside a `width * height` grid holds a cell |
| Grid.LookupWrapsToNextRow | src/grid.rs:25-27 | since `x` is not checked against the width, `(width, y)` reads the same slot as `(0, y + 1)` |
| Grid.LookupTest | src/grid.rs:64-69 | on a 10 by 2 grid, `(9, 1)` holds a cell and `(1, 9)` does not |
| Grid.PairIndices | src/grid.rs:29-49 | two handles are given out exactly when both indices are in the buffer and differ, and they are the two linear indices in argument order |
| Grid.Grid2D.NewWith | src/grid.rs:12-23 | the buffer has `width * height` cells, the i-th produced by the i-th generator call |
| Grid.Grid2D.Get | src/grid.rs:25-27 | the array read agrees with `Lookup` on the buffer's contents |
| Grid.Grid2D.Size | src/grid.rs:51-53 | the reported width and height multiply to the cell count |
| Grid.Grid2D.Count | src/grid.rs:55-57 | the cell count is `width * height` |
| Grid.Grid2D.ModifyPair | src/grid.rs:29-49 | writing through the second handle changes exactly the `loc2` slot, to a function of both old cells; a refused pair changes nothing |
| Battle.BindStrategy | src/battle.rs:42-52 | the bound strategy is filtered exactly when filtering was requested, and weakest-based exactly when the algorithm is by-weakest |
| Battle.Neighbours | src/battle.rs:131-138 | four neighbours, all inside the grid when the origin is |
| Battle.WrapSteps | src/battle.rs:131-138 | the wrapped step back and forward along an axis moves by one, with wrap-around at the edges |
| Battle.NeighboursInverse | src/battle.rs:131-138 | up and down, and right and left, undo each other, so the neighbour relation is symmetric |
| Battle.NeighboursOfCorner | src/battle.rs:131-138 | on a 4 by 4 torus the corner `(0, 0)` has neighbours `(0, 3)`, `(1, 0)`, `(0, 1)`, `(3, 0)` |
| Battle.DecodeEncode | src/battle.rs:77 | decoding `(current % w, current / w)` and re-encoding gives the index back |
| Battle.DecodeInBounds | src/battle.rs:77 | every buffer index decodes to a location inside the grid |
| Battle.Decode | src/battle.rs:77 | the decoded column lies inside the row |
| Battle.EncodeDecode | src/battle.rs:77 | an in-row location survives encoding then decoding |
| Battle.LastMaxIndex | src/battle.rs:96-103 | `max_by_key` yields an arg-max, the last among ties |
| Battle.MaxByKey | src/battle.rs:96-103 | `max_by_key` is empty exactly on an empty pool |
| Battle.MaxByKeySnoc | src/battle.rs:96-103 | one more element meets the best so far and wins ties |
| Battle.GetCandidate | src/battle.rs:140-143 | a candidate exists exactly when `get` finds a cell, and pairs that cell with its location |
| Battle.Candidates | src/battle.rs:98-100 | `filter_map(get_candidate)` keeps at most the given locations, each with the cell `get` finds there |
| Battle.KeepShouldFight | src/battle.rs:111 | `filter(should_fight)` keeps only candidates the attacker `should_fight`s, drawn from its input |
| Battle.PoolSnoc | src/battle.rs:140-143 | appending a location appends its candidate exactly when the location is eligible |
| Battle.PoolMembers | src/battle.rs:105-114 | the candidate pool holds exactly the eligible locations, each paired with its own cell |
| Battle.PoolEmpty | src/battle.rs:120-128 | the pool is empty exactly when no location is eligible |
| Battle.LastBestKeep | src/battle.rs:96-103 | a last best position stays so when an ineligible or strictly weaker location follows |
| Battle.LastBestNew | src/battle.rs:96-103 | an eligible location at least as strong as every earlier one becomes the last best |
| Battle.PoolMaxStep | src/battle.rs:96-114 | each step of the fold keeps "nothing iff none eligible, else the last best eligible" |
| Battle.PoolMax | src/battle.rs:96-114 | both weakest pipelines select the last best eligible location, and nothing exactly when none is eligible |
| Battle.LastBestUnique | src/battle.rs:96-114 | the weakest choice is determined by the grid: two last best positions coincide |
| Battle.WeakestNeighbour | src/battle.rs:96-103 | nothing on an empty origin; otherwise the last most effective neighbour that holds a cell, and nothing exactly when none does |
| Battle.WeakestNeighbourFiltered | src/battle.rs:105-114 | the same, among the neighbours `should_fight` accepts |
| Battle.RandomNeighbour | src/battle.rs:116-118 | always one of the four neighbours |
| Battle.ChooseFrom | src/battle.rs:116-128 | `choose` is empty exactly on an empty pool and otherwise draws a pool member |
| Battle.ChooseReaches | src/battle.rs:116-128 | every pool member is the draw of some index |
| Battle.RandomNeighbourFiltered | src/battle.rs:120-128 | an eligible neighbour, and nothing exactly when the origin is empty or no neighbour is eligible |
| Battle.RandomFilteredReachesEvery | src/battle.rs:120-128 | every eligible neighbour can be drawn |
| Battle.UnfilteredAlwaysSelects | src/battle.rs:96-103 | inside a full grid the unfiltered strategies always find a defender |
| Battle.Select | src/battle.rs:78-81 | the bound callback's choice is always a neighbour of the attacker |
| Battle.FilteredSelectionShouldFight | src/battle.rs:105-128 | a filtered strategy never returns a defender `should_fight` rejects |
| Battle.FightCells | src/battle.rs:90-94 | only the defender's cell changes, to the fight's result; nothing changes when the pair is refused |
| Battle.Orbit | src/battle.rs:83 | the traversal's `current` stays inside the buffer |
| Battle.OrbitClosedForm | src/battle.rs:72-86 | after k advances, `current == (start + k * offset) % n` |
| Battle.OrbitReturns | src/battle.rs:72-86 | after `n` advances the traversal is back at `start`, so the loop terminates |
| Battle.ReturnFrom | src/battle.rs:83-86 | the first return to `start` at or after a bound |
| Battle.ReturnTime | src/battle.rs:83-86 | the loop runs until the first return to `start`, between 1 and `n` iterations |
| Battle.ReturnTimeUnique | src/battle.rs:83-86 | any first return is the one `ReturnTime` names |
| Battle.StepInjective | src/battle.rs:83 | one advance modulo `n` is one-to-one |
| Battle.OrbitCancel | src/battle.rs:83 | two coinciding points `d` apart imply a return to `start` after `d` advances |
| Battle.VisitsDistinct | src/battle.rs:72-86 | no attacker index is visited twice in one tick |
| Battle.Step | src/battle.rs:77-81 | one iteration keeps the grid size and changes at most one cell, a neighbour of its attacker |
| Battle.Run | src/battle.rs:72-86 | the grid after k iterations keeps its size |
| Battle.Tick | src/battle.rs:65-88 | one whole `action` keeps the grid size; what it changes and keeps is stated by `RunChangesOnlyNeighbours` and `TickPreserves` |
| Battle.RunChangesOnlyNeighbours | src/battle.rs:72-86 | every cell changed by a tick is a neighbour of some attacker of that tick |
| Battle.RunPreserves | src/battle.rs:72-86 | any cell property every fight keeps holds of every cell after any number of iterations |
| Battle.TickPreserves | src/battle.rs:65-88 | such a property holds of every cell after a whole tick |
| Battle.Battle.constructor | src/battle.rs:30-54 | the grid is `width * height` cells from the generator, and the callback is `BindStrategy`'s choice |
| Battle.Battle.FighterAt | src/battle.rs:61-63 | read access agrees with `Lookup` |
| Battle.Battle.Fight | src/battle.rs:90-94 | the array becomes `FightCells` of its old contents |
| Battle.Battle.Attack | src/battle.rs:77-81 | one loop body turns the array into `Step` of its old contents |
| Battle.Battle.Action | src/battle.rs:65-88 | the loop, run in place on the array, leaves exactly `Tick` of the old grid |
| Pokemon.Repr | src/pokemon.rs:8-29 | a discriminant is below the 18 variants |
| Pokemon.FromReprRepr | src/pokemon.rs:8-29 | `from_repr` inverts the discriminant |
| Pokemon.FromRepr | src/pokemon.rs:8-29 | `from_repr`, with its domain and inverse stated by `FromReprRepr` and `ReprFromRepr` |
| Pokemon.ReprFromRepr | src/pokemon.rs:8-29 | `from_repr` is defined exactly below 18, and the discriminant inverts it |
| Pokemon.FromReprTest | src/pokemon.rs:174-178 | 0 is Normal and 17 is Fairy |
| Pokemon.ChartRowsNormalToGround | src/pokemon.rs:58-77 | the first nine chart rows have 18 entries, each 0, 50, 100 or 200 |
| Pokemon.ChartRowsFlyingToFairy | src/pokemon.rs:58-77 | the same for the last nine rows |
| Pokemon.ChartShape | src/pokemon.rs:58-77 | the chart is 18 by 18 with every entry one of the four multipliers |
| Pokemon.Effectiveness | src/pokemon.rs:79-81 | every effectiveness is 0, 50, 100 or 200 |
| Pokemon.EffectivenessTest | src/pokemon.rs:180-194 | Normal on Normal 100, Fire on Steel 200, Water on Grass 50; Steel on Fire 50 shows the chart is not symmetric |
| Pokemon.Spawn | src/pokemon.rs:91-103 | `new` and `reset` produce a healthy pokemon of the given type |
| Pokemon.AfterDamage | src/pokemon.rs:105-109 | `take_damage` on a value, pinned by `TakeDamageTest` and `FightOutcome` |
| Pokemon.FightRule | src/pokemon.rs:121-130 | `fight` on values; its outcome is stated by `FightOutcome`, and `FightKeepsHealthy` is the invariant it keeps |
| Pokemon.Rules | src/pokemon.rs:112-131 | the `impl Fighter` for pokemon, used by `FilteredNeverPicksSameKind` and `TickKeepsHealthy` |
| Pokemon.FightOutcome | src/pokemon.rs:121-130 | the defender dies exactly when its health minus the scaled damage is at most 0; a dead one is reborn at 80/40 with the attacker's type, and a survivor only loses that damage |
| Pokemon.TakeDamageTest | src/pokemon.rs:208-222 | from 80, a hit of 40 leaves it alive at 40 and a second hit kills it |
| Pokemon.ResetTest | src/pokemon.rs:224-238 | a reset fighter takes the new type, dies of 80 and survives 40 |
| Pokemon.DamageValues | src/pokemon.rs:121-125 | a healthy attacker deals 0, 20, 40 or 80 |
| Pokemon.FightKeepsHealthy | src/pokemon.rs:121-130 | a fight between healthy fighters leaves a defender alive with health at most 80 and damage 40 |
| Pokemon.FightFitsInI32 | src/pokemon.rs:121-125 | between healthy fighters every intermediate value fits in an `i32` |
| Pokemon.FilteredNeverPicksSameKind | src/pokemon.rs:113-115 | under a filtered strategy two pokemon of one type never fight |
| Pokemon.TickKeepsHealthy | src/pokemon.rs:112-131 | a grid of healthy pokemon stays healthy through a whole tick |
| Pokemon.PokemonFighter.constructor | src/pokemon.rs:91-97 | health 80, damage 40, the given type |
| Pokemon.PokemonFighter.Reset | src/pokemon.rs:99-103 | the fields become 80, 40 and the new type |
| Pokemon.PokemonFighter.TakeDamage | src/pokemon.rs:105-109 | the health drops by the damage, and the flag says it is at most 0 |
| Pokemon.PokemonFighter.Fight | src/pokemon.rs:121-130 | only the defender changes, as `FightRule` says |
| Rps.Repr | src/rps.rs:22-26 | a discriminant is below 3 |
| Rps.FromIndex | src/rps.rs:16-20 | the conversion from `usize` inverts the discriminant |
| Rps.FromIndexRepr | src/rps.rs:16-26 | the discriminant then the conversion back gives the kind |
| Rps.Effectiveness | src/rps.rs:40-48 | every effectiveness is 0 or 100 |
| Rps.EffectivenessIsCycle | src/rps.rs:40-48 | the table is 100 exactly when rock meets scissors, paper meets rock or scissors meets paper, and 0 otherwise |
| Rps.CycleIsBalanced | src/rps.rs:40-44 | every kind beats exactly one kind, loses to exactly one, and never beats itself |
| Rps.EffectivenessTest | src/rps.rs:130-170 | all nine pairs of the unit test |
| Rps.TakeDamageTest | src/rps.rs:188-202 | a hit of 0 leaves health unchanged and alive, then 100 kills |
| Rps.ResetTest | src/rps.rs:204-218 | a reset fighter takes the new kind, dies of 100 and survives 0 |
| Rps.Spawn | src/rps.rs:58-70 | `new` and `reset` produce a fresh fighter of the given kind |
| Rps.AfterDamage | src/rps.rs:72-76 | `take_damage` on a value, pinned by `TakeDamageTest` and `FightOutcome` |
| Rps.FightRule | src/rps.rs:88-97 | `fight` on values; its outcome is stated by `FightOutcome`, and `FightKeepsFresh` is the invariant it keeps |
| Rps.Rules | src/rps.rs:79-98 | the `impl Fighter` for rock-paper-scissors, used by `WeakestPicksBeatenNeighbour` and `TickKeepsFresh` |
| Rps.FightOutcome | src/rps.rs:88-97 | between fresh fighters the defender dies exactly when it is beaten and then becomes a fresh attacker kind, and is otherwise unchanged |
| Rps.FightKeepsFresh | src/rps.rs:88-97 | health and damage stay 100 after a fight |
| Rps.WeakestPicksBeatenNeighbour | src/battle.rs:96-103 | under the weakest strategy an attacker picks a neighbour it beats whenever it has one |
| Rps.TickKeepsFresh | src/rps.rs:79-98 | a grid of fresh fighters stays fresh through a whole tick |
| Rps.RpsFighter.constructor | src/rps.rs:58-64 | health 100, damage 100, the given kind |
| Rps.RpsFighter.Reset | src/rps.rs:66-70 | the fields become 100, 100 and the new kind |
| Rps.RpsFighter.TakeDamage | src/rps.rs:72-76 | the health drops by the damage, and the flag says it is at most 0 |
| Rps.RpsFighter.Fight | src/rps.rs:88-97 | only the defender changes, as `FightRule` says |
| StreetFighter.Repr | src/street_fighter.rs:70-74 | a discriminant is below the 39 characters |
| StreetFighter.FromIndexRepr | src/street_fighter.rs:64-74 | the conversion from `usize` inverts the discriminant |
| StreetFighter.FromIndex | src/street_fighter.rs:64-68 | `From<usize>`, with its inverse stated by `FromIndexRepr` and `ReprFromIndex` |
| StreetFighter.ReprFromIndex | src/street_fighter.rs:64-74 | every index below 39 converts to a character whose discriminant is that index |
| StreetFighter.ChartShape | src/street_fighter.rs:123-164 | the chart is 39 by 39 with every entry one of 0, 20, 30, …, 80 |
| StreetFighter.Effectiveness | src/street_fighter.rs:166-168 | every win chance is one of the chart's values, between 0 and 80 |
| StreetFighter.Row | src/street_fighter.rs:123-164 | each row has 39 entries from that set |
| StreetFighter.SameKindHasNoChance | src/street_fighter.rs:123-164 | the diagonal is 0: no character can beat itself |
| StreetFighter.Spawn | src/street_fighter.rs:179-192 | `new` and `reset` produce a fresh fighter of the given character |
| StreetFighter.FightRule | src/street_fighter.rs:204-216 | `fight` on values given the roll; its outcome is stated by `FightOutcome` and `KillingRollCount` |
| StreetFighter.Rules | src/street_fighter.rs:195-217 | the `impl Fighter` for street fighter, used by `TickKeepsFreshAndKinds` |
| StreetFighter.FightOutcome | src/street_fighter.rs:204-216 | the defender dies exactly when the roll is below the chance, and is then reborn at 100/100 as the attacker's character; otherwise it is unchanged |
| StreetFighter.NoChanceNeverKills | src/street_fighter.rs:204-216 | a zero chance, including any same-character fight, never kills |
| StreetFighter.HighRollsSurvive | src/street_fighter.rs:204-216 | a roll of 80 or more never kills |
| StreetFighter.KillingRollCount | src/street_fighter.rs:208-210 | exactly `Effectiveness` of the 101 possible rolls kill |
| StreetFighter.BelowCount | src/street_fighter.rs:208 | the rolls `0 ..< n` number `n` |
| StreetFighter.TickKeepsFreshAndKinds | src/street_fighter.rs:195-217 | a grid of fresh fighters stays fresh through a tick, and no new character appears |
| StreetFighter.Contender.constructor | src/street_fighter.rs:179-186 | health 100, damage 100, the given character |
| StreetFighter.Contender.Reset | src/street_fighter.rs:188-192 | the fields become 100, 100 and the new character |
| StreetFighter.Contender.Fight | src/street_fighter.rs:204-216 | given the defender's roll, only the defender changes, as `FightRule` says |
| ColorFight.Sat | src/color_fight.rs:29-33 | a channel never rises, is 0 exactly when the attack's channel is at least as large, and otherwise loses the attack's channel |
| ColorFight.Damaged | src/color_fight.rs:28-34 | the colour after the channel loop, channel by channel as `TakeDamageChannels` states |
| ColorFight.TakeDamageRule | src/color_fight.rs:27-37 | `take_damage` on a value; its death flag is characterised by `TakeDamageDeath` |
| ColorFight.ShouldFightRule | src/color_fight.rs:41-49 | `should_fight` on values; `ShouldFightIffKills` shows it holds exactly when the attack kills |
| ColorFight.Effectiveness | src/color_fight.rs:51-53 | every target ranks 1 |
| ColorFight.FightRule | src/color_fight.rs:55-63 | `fight` on values; its outcome is stated by `FightOutcome` and `ShouldFightIffKills` |
| ColorFight.Rules | src/color_fight.rs:40-64 | the `impl Fighter` for colour fight, used by `TickKeepsCeiling` and `FilteredSelectionKills` |
| ColorFight.TakeDamageChannels | src/color_fight.rs:27-37 | each channel stays between 0 and its old value, and is 0 exactly when the attack's channel reaches it |
| ColorFight.TakeDamageDeath | src/color_fight.rs:27-37 | death is reported exactly when some attack channel reaches the colour's |
| ColorFight.ShouldFightIffKills | src/color_fight.rs:41-63 | a colour fighter wants to fight exactly the defenders one attack kills |
| ColorFight.FightOutcome | src/color_fight.rs:55-63 | a killed defender takes the attacker's colour; a survivor keeps every channel positive, each lowered by the attacker's |
| ColorFight.BlackAlwaysFalls | src/color_fight.rs:17-21 | a new, black fighter dies to any attack and becomes the attacker |
| ColorFight.TickKeepsCeiling | src/color_fight.rs:55-63 | no colour brightens: a grid below a channel-wise ceiling stays below it for a whole tick |
| ColorFight.FilteredSelectionKills | src/color_fight.rs:41-49 | under a filtered strategy the chosen defender always dies |
| ColorFight.ColorFighter.constructor | src/color_fight.rs:17-21 | a new fighter is black |
| ColorFight.ColorFighter.Reset | src/color_fight.rs:23-25 | the colour becomes the given one |
| ColorFight.ColorFighter.TakeDamage | src/color_fight.rs:27-37 | the in-place channel loop and the `any` scan give `TakeDamageRule` of the old colour |
| ColorFight.ColorFighter.ShouldFight | src/color_fight.rs:41-49 | the loop with its early return decides `ShouldFightRule` |
| ColorFight.ColorFighter.Fight | src/color_fight.rs:55-63 | the attacker is unchanged, and the defender changes as `FightRule` says |
| RealPokemons.Effectiveness | src/real_pokemons.rs:27-35 | the dual effectiveness is a product of two chart multipliers (or one and 100) |
| RealPokemons.AttackDefense | src/real_pokemons.rs:81-84 | the ratio is at least both the physical and the special ratio, and not negative |
| RealPokemons.Damage | src/real_pokemons.rs:86-91 | every strike deals at least 2 |
| RealPokemons.Strike | src/real_pokemons.rs:76-93 | the counter drops by `Damage`, so by at least 2 |
| RealPokemons.Exchange | src/real_pokemons.rs:53-65 | the strike loop stops only with a counter below zero |
| RealPokemons.Opening | src/real_pokemons.rs:48-51 | the defender strikes first exactly when it is strictly faster, and that strike only lowers the attacker's counter |
| RealPokemons.FightRule | src/real_pokemons.rs:37-73 | `fight` on values; its winner is stated in closed form by `FightWinner` and its result by `FightOutcome` |
| RealPokemons.Rules | src/real_pokemons.rs:22-74 | the `impl Fighter` for real pokemon, used by `TickKeepsRoster` |
| RealPokemons.StrikesNeededIsLeast | src/real_pokemons.rs:53-65 | `hp / damage + 1` strikes take a counter below zero, and one fewer does not |
| RealPokemons.StrikesNeededStep | src/real_pokemons.rs:53-65 | one strike lowers the strikes needed by one |
| RealPokemons.ExchangeWinner | src/real_pokemons.rs:53-65 | with the attacker to strike, the defender falls exactly when it needs no fewer strikes than the attacker |
| RealPokemons.OpeningStrikeWinner | src/real_pokemons.rs:48-65 | after the defender's opening strike, the attacker wins exactly when it needs strictly fewer strikes |
| RealPokemons.FightWinner | src/real_pokemons.rs:37-73 | closed form of the winner: attacker strikes `ka` against defender strikes `kd`, with `<` when the defender is faster and `<=` otherwise |
| RealPokemons.MirrorMatchWonByAttacker | src/real_pokemons.rs:48-51 | on a speed tie the attacker strikes first, so a mirror match always goes to the attacker |
| RealPokemons.DefenderHpIgnored | src/real_pokemons.rs:45-46 | both counters start at the attacker's hit points, so the defender's own `hp` plays no part |
| RealPokemons.FightOutcome | src/real_pokemons.rs:67-72 | a fallen defender becomes exactly the attacker; a standing one is left as it was |
| RealPokemons.Fight | src/real_pokemons.rs:37-73 | the loop over two mutable counters gives `FightRule` |
| RealPokemons.TickKeepsRoster | src/real_pokemons.rs:67-72 | every cell after a tick holds a pokemon of the roster the grid started from |
| RealPokemons.MapPokemon | src/real_pokemons.rs:178-192 | a record maps exactly when it has base stats and at least one type; types, name and stats are carried over |
| Types.TrimStartDrops | src/types.rs:15 | trimming the start drops only whitespace and keeps a suffix that does not start with whitespace |
| Types.TrimEndDrops | src/types.rs:15 | trimming the end drops only whitespace and keeps a prefix that does not end with whitespace |
| Types.TrimStart | src/types.rs:15 | trimming the start never lengthens the string; what it drops is stated by `TrimStartDrops` |
| Types.TrimEnd | src/types.rs:15 | trimming the end never lengthens the string; what it drops is stated by `TrimEndDrops` |
| Types.Trim | src/types.rs:15 | `str::trim` never lengthens the string |
| Types.Display | src/types.rs:25-36 | every printed name is non-empty and neither starts nor ends with whitespace |
| Types.FromStr | src/types.rs:13-22 | every failure carries the message "Unknown fighter type" |
| Types.TrimFixed | src/types.rs:15 | a name without surrounding whitespace is its own trimming |
| Types.FromStrIffDisplay | src/types.rs:13-36 | parsing yields a variant exactly when the trimmed input is that variant's printed name |
| Types.RoundTrip | src/types.rs:13-36 | printing then parsing gives the variant back |
| Types.DisplayInjective | src/types.rs:25-36 | distinct variants print distinct names |
| Types.TrimStartSkips | src/types.rs:15 | leading whitespace is skipped up to the first other character |
| Types.TrimEndSkips | src/types.rs:15 | trailing whitespace is skipped back to the last other character |
| Types.PaddedNameParses | src/types.rs:15-19 | whitespace around a name is ignored |
| Types.FromStrExamples | src/types.rs:13-22 | `" rps\n"` parses as RPS and `"pikachu"` is refused |

## Left out

- `main.rs`, the nannou window, drawing, and `image.py`: rendering and I/O.
- The command-line parser in `args.rs`: only its size range, 32 to 8192, is kept, as the precondition of `Battle.Battle.constructor`.
- `load_pokemons` (an HTTP request with `reqwest`) and the serde JSON decoding: network and foreign code. `RealPokemons.MapPokemon` starts from an already decoded record.
- The `rand` sampling (`thread_rng`, `Uniform`, `choose`, `gen_range`) and the `GenerateRandomly`/`RandomlyGeneratable`/`Generator` glue: random draws are the inputs of the model instead. `Draws` carries a start index, a primes index, a choice index per attacker and a roll per attacker, and `NewWith` takes a generator from cell index to cell. `StreetFighterType::random` and `RealPokemonGenerator` are left out for the same reason.
- The `Colored` trait and the colour tables of every kind: rendering only.
- The derived `Debug` impls, and the `Display` impls of rock-paper-scissors (rps.rs, lines 120-124) and colour fight (color_fight.rs, lines 86-90), which print the kind or the colour with `{:?}`: formatting only.
- Concurrency: nothing of the core is concurrent.
- Battle.Battle.FighterAt: returns a value and not a reference; the borrow is not modelled.
- RealPokemons.Fight: real pokemon has no class; the in-place `*defender = self.clone()` is modelled by returning the defender's new value, so the overwrite of the defender's storage is not modelled.
- StreetFighter.Contender.Fight: the defender's own random number generator is not a field; its draw is the `roll` parameter.
- StreetFighter.KillingRollCount: the roll is drawn from 0..=100, 101 values, so a chance of `e` wins with probability `e / 101`, not `e / 100`. The model follows the code.
- StreetFighter.ChartShape: it states the entries' range and the zero diagonal (`SameKindHasNoChance`). It does not state that `T[a][b] + T[b][a] == 100` for distinct characters, which the table appears to follow; proving that over 741 pairs of the literal table costs too much.
- RealPokemons.Damage: Rust's `i32` arithmetic is modelled with unbounded integers. Absurd stats (a defence of 0, or products that overflow `i32`) are not modelled: `Battler` requires non-negative stats and positive defences, and overflow is not modelled.
- `i32` overflow of health is not modelled for rock-paper-scissors or street fighter either. For pokemon, `Pokemon.FightFitsInI32` shows that the values stay within `i32`.
- Battle.VisitsDistinct: it proves that no cell is visited twice per tick and that the tick has at most `n` iterations. It does not state the exact count `n / gcd(n, offset)`.
- `lib.rs` re-exports: module wiring only.
