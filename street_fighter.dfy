/** The street fighter rules: a 39 by 39 matchup chart of chances to win, health 100 and damage
    100, and a die roll that decides each fight. */
module StreetFighter {
  import opened Tables
  import Grid
  import Battle

  /** The thirty-nine characters, in declaration order. */
  datatype Kind =
      Seth
    | CViper
    | Cammy
    | Akuma
    | FLong
    | Rufus
    | Sagat
    | Balrog
    | Adon
    | Ibuki
    | Abel
    | Blanka
    | Makoto
    | Bison
    | Ryu
    | Ken
    | Yun
    | Zangief
    | Dhalsim
    | Guile
    | Sakura
    | ChunLi
    | DeeJay
    | Juri
    | Rose
    | Gouken
    | Guy
    | Cody
    | Fuerte
    | Yang
    | EHonda
    | Gen
    | Vega
    | Dudley
    | Oni
    | EvilRyu
    | Hakan
    | THawk
    | Dan

  const COUNT: nat := 39

  /** `From<StreetFighterType> for usize`: the discriminant. */
  function Repr(k: Kind): (i: nat)
    ensures i < COUNT
  {
    match k
    case Seth => 0
    case CViper => 1
    case Cammy => 2
    case Akuma => 3
    case FLong => 4
    case Rufus => 5
    case Sagat => 6
    case Balrog => 7
    case Adon => 8
    case Ibuki => 9
    case Abel => 10
    case Blanka => 11
    case Makoto => 12
    case Bison => 13
    case Ryu => 14
    case Ken => 15
    case Yun => 16
    case Zangief => 17
    case Dhalsim => 18
    case Guile => 19
    case Sakura => 20
    case ChunLi => 21
    case DeeJay => 22
    case Juri => 23
    case Rose => 24
    case Gouken => 25
    case Guy => 26
    case Cody => 27
    case Fuerte => 28
    case Yang => 29
    case EHonda => 30
    case Gen => 31
    case Vega => 32
    case Dudley => 33
    case Oni => 34
    case EvilRyu => 35
    case Hakan => 36
    case THawk => 37
    case Dan => 38
  }

  /** `From<usize> for StreetFighterType` (and `random`, given the die's value), which unwrap
      `from_repr` and so are defined only below `COUNT`. */
  function FromIndex(i: nat): Kind
    requires i < COUNT
  {
    match i
    case 0 => Seth
    case 1 => CViper
    case 2 => Cammy
    case 3 => Akuma
    case 4 => FLong
    case 5 => Rufus
    case 6 => Sagat
    case 7 => Balrog
    case 8 => Adon
    case 9 => Ibuki
    case 10 => Abel
    case 11 => Blanka
    case 12 => Makoto
    case 13 => Bison
    case 14 => Ryu
    case 15 => Ken
    case 16 => Yun
    case 17 => Zangief
    case 18 => Dhalsim
    case 19 => Guile
    case 20 => Sakura
    case 21 => ChunLi
    case 22 => DeeJay
    case 23 => Juri
    case 24 => Rose
    case 25 => Gouken
    case 26 => Guy
    case 27 => Cody
    case 28 => Fuerte
    case 29 => Yang
    case 30 => EHonda
    case 31 => Gen
    case 32 => Vega
    case 33 => Dudley
    case 34 => Oni
    case 35 => EvilRyu
    case 36 => Hakan
    case 37 => THawk
    case _ => Dan
  }

  lemma FromIndexReprSethToBalrog(k: Kind)
    requires k == Seth || k == CViper || k == Cammy || k == Akuma || k == FLong || k == Rufus || k == Sagat || k == Balrog
    ensures FromIndex(Repr(k)) == k
  {
  }

  lemma FromIndexReprAdonToRyu(k: Kind)
    requires k == Adon || k == Ibuki || k == Abel || k == Blanka || k == Makoto || k == Bison || k == Ryu
    ensures FromIndex(Repr(k)) == k
  {
  }

  lemma FromIndexReprKenToSakura(k: Kind)
    requires k == Ken || k == Yun || k == Zangief || k == Dhalsim || k == Guile || k == Sakura
    ensures FromIndex(Repr(k)) == k
  {
  }

  lemma FromIndexReprChunLiToGouken(k: Kind)
    requires k == ChunLi || k == DeeJay || k == Juri || k == Rose || k == Gouken
    ensures FromIndex(Repr(k)) == k
  {
  }

  lemma FromIndexReprGuyToEHonda(k: Kind)
    requires k == Guy || k == Cody || k == Fuerte || k == Yang || k == EHonda
    ensures FromIndex(Repr(k)) == k
  {
  }

  lemma FromIndexReprGenToOni(k: Kind)
    requires k == Gen || k == Vega || k == Dudley || k == Oni
    ensures FromIndex(Repr(k)) == k
  {
  }

  lemma FromIndexReprEvilRyuToDan(k: Kind)
    requires k == EvilRyu || k == Hakan || k == THawk || k == Dan
    ensures FromIndex(Repr(k)) == k
  {
  }

  /** `From<usize>` inverts the discriminant. */
  lemma FromIndexRepr(k: Kind)
    ensures FromIndex(Repr(k)) == k
  {
    match k
    case Seth | CViper | Cammy | Akuma | FLong | Rufus | Sagat | Balrog => FromIndexReprSethToBalrog(k);
    case Adon | Ibuki | Abel | Blanka | Makoto | Bison | Ryu => FromIndexReprAdonToRyu(k);
    case Ken | Yun | Zangief | Dhalsim | Guile | Sakura => FromIndexReprKenToSakura(k);
    case ChunLi | DeeJay | Juri | Rose | Gouken => FromIndexReprChunLiToGouken(k);
    case Guy | Cody | Fuerte | Yang | EHonda => FromIndexReprGuyToEHonda(k);
    case Gen | Vega | Dudley | Oni => FromIndexReprGenToOni(k);
    case EvilRyu | Hakan | THawk | Dan => FromIndexReprEvilRyuToDan(k);
  }

  lemma ReprFromIndex0To9(i: nat)
    requires 0 <= i < 10
    ensures Repr(FromIndex(i)) == i
  {
    if i == 0 {} else if i == 1 {} else if i == 2 {} else if i == 3 {} else if i == 4 {} else if i == 5 {} else if i == 6 {} else if i == 7 {} else if i == 8 {} else {}
  }

  lemma ReprFromIndex10To19(i: nat)
    requires 10 <= i < 20
    ensures Repr(FromIndex(i)) == i
  {
    if i == 10 {} else if i == 11 {} else if i == 12 {} else if i == 13 {} else if i == 14 {} else if i == 15 {} else if i == 16 {} else if i == 17 {} else if i == 18 {} else {}
  }

  lemma ReprFromIndex20To29(i: nat)
    requires 20 <= i < 30
    ensures Repr(FromIndex(i)) == i
  {
    if i == 20 {} else if i == 21 {} else if i == 22 {} else if i == 23 {} else if i == 24 {} else if i == 25 {} else if i == 26 {} else if i == 27 {} else if i == 28 {} else {}
  }

  lemma ReprFromIndex30To38(i: nat)
    requires 30 <= i < 39
    ensures Repr(FromIndex(i)) == i
  {
    if i == 30 {} else if i == 31 {} else if i == 32 {} else if i == 33 {} else if i == 34 {} else if i == 35 {} else if i == 36 {} else if i == 37 {} else {}
  }

  lemma ReprFromIndex(i: nat)
    requires i < COUNT
    ensures Repr(FromIndex(i)) == i
  {
    if i < 10 { ReprFromIndex0To9(i); }
    else if i < 20 { ReprFromIndex10To19(i); }
    else if i < 30 { ReprFromIndex20To29(i); }
    else { ReprFromIndex30To38(i); }
  }

  // ---------------------------------------------------------------------------------------------
  // The matchup chart: row = attacking character, column = defending character; each entry is the
  // attacker's chance to win, in percent

  const ROW_SETH: seq<int> := [ 0, 40, 40, 50, 40, 50, 50, 50, 40, 50, 50, 50, 50, 60, 60, 50, 60, 70, 60, 60, 40, 60, 50, 60, 60, 60, 40, 60, 50, 60, 60, 50, 60, 60, 60, 50, 60, 70, 70]
  const ROW_CVIPER: seq<int> := [60,  0, 60, 60, 50, 50, 60, 40, 50, 40, 60, 50, 60, 40, 60, 60, 50, 40, 70, 60, 50, 60, 50, 40, 60, 60, 50, 60, 50, 50, 50, 60, 50, 50, 60, 60, 50, 60, 60]
  const ROW_CAMMY: seq<int> := [60, 40,  0, 60, 40, 50, 60, 40, 50, 60, 60, 60, 60, 40, 60, 50, 50, 40, 60, 40, 50, 50, 40, 60, 60, 60, 50, 60, 60, 50, 60, 60, 60, 50, 60, 60, 60, 60, 60]
  const ROW_AKUMA: seq<int> := [50, 40, 40,  0, 50, 50, 60, 50, 50, 50, 60, 50, 50, 50, 50, 50, 40, 60, 60, 60, 60, 60, 50, 50, 50, 60, 60, 50, 60, 50, 60, 60, 60, 50, 50, 60, 60, 60, 60]
  const ROW_FLONG: seq<int> := [60, 50, 60, 50,  0, 50, 60, 40, 50, 50, 50, 60, 50, 50, 60, 50, 50, 60, 60, 50, 50, 60, 60, 60, 40, 50, 50, 50, 50, 50, 60, 50, 50, 50, 60, 50, 60, 60, 60]
  const ROW_RUFUS: seq<int> := [50, 50, 50, 50, 50,  0, 40, 50, 50, 60, 60, 50, 60, 50, 40, 50, 60, 30, 60, 40, 60, 60, 40, 50, 70, 40, 40, 50, 60, 60, 60, 50, 60, 50, 60, 60, 60, 50, 70]
  const ROW_SAGAT: seq<int> := [50, 40, 40, 40, 40, 60,  0, 60, 50, 40, 50, 50, 50, 50, 50, 60, 60, 70, 50, 50, 60, 40, 50, 40, 60, 50, 60, 60, 50, 60, 60, 50, 60, 40, 50, 60, 60, 70, 60]
  const ROW_BALROG: seq<int> := [50, 60, 60, 50, 60, 50, 40,  0, 60, 50, 50, 60, 60, 50, 50, 50, 50, 40, 40, 40, 60, 40, 50, 50, 60, 50, 60, 50, 50, 60, 50, 50, 50, 60, 60, 50, 50, 50, 60]
  const ROW_ADON: seq<int> := [60, 50, 50, 50, 50, 50, 50, 40,  0, 50, 50, 60, 50, 50, 60, 50, 50, 40, 40, 60, 60, 50, 50, 50, 60, 60, 50, 50, 60, 50, 40, 50, 50, 50, 50, 60, 60, 40, 60]
  const ROW_IBUKI: seq<int> := [50, 60, 40, 50, 50, 40, 60, 50, 50,  0, 50, 40, 50, 40, 50, 50, 50, 40, 60, 60, 50, 50, 60, 50, 50, 50, 60, 50, 50, 50, 50, 50, 60, 50, 60, 60, 60, 40, 60]
  const ROW_ABEL: seq<int> := [50, 40, 40, 40, 50, 40, 50, 50, 50, 50,  0, 60, 50, 50, 60, 50, 50, 40, 70, 60, 50, 40, 50, 40, 50, 60, 50, 50, 50, 50, 60, 60, 60, 50, 60, 60, 60, 40, 50]
  const ROW_BLANKA: seq<int> := [50, 50, 40, 50, 40, 50, 50, 40, 40, 60, 40,  0, 50, 40, 50, 50, 50, 60, 40, 60, 50, 50, 60, 60, 60, 60, 60, 60, 60, 40, 50, 50, 40, 50, 50, 50, 40, 80, 60]
  const ROW_MAKOTO: seq<int> := [50, 40, 40, 50, 50, 40, 50, 40, 50, 50, 50, 50,  0, 50, 50, 50, 50, 40, 60, 60, 50, 40, 50, 50, 60, 50, 50, 50, 60, 50, 40, 50, 60, 60, 60, 50, 60, 60, 70]
  const ROW_BISON: seq<int> := [40, 60, 60, 50, 50, 50, 50, 50, 50, 60, 50, 60, 50,  0, 50, 50, 40, 40, 50, 30, 60, 50, 60, 60, 50, 50, 50, 50, 60, 50, 40, 50, 50, 50, 50, 50, 60, 50, 60]
  const ROW_RYU: seq<int> := [40, 40, 40, 50, 40, 60, 50, 50, 40, 50, 40, 50, 50, 50,  0, 50, 60, 60, 40, 50, 60, 50, 50, 50, 40, 50, 50, 50, 50, 50, 60, 50, 60, 50, 60, 60, 60, 60, 70]
  const ROW_KEN: seq<int> := [50, 40, 50, 50, 50, 50, 40, 50, 50, 50, 50, 50, 50, 50, 50,  0, 60, 50, 40, 40, 50, 60, 60, 50, 40, 50, 50, 60, 50, 60, 50, 60, 50, 50, 50, 50, 60, 50, 60]
  const ROW_YUN: seq<int> := [40, 50, 50, 60, 50, 40, 40, 50, 50, 50, 50, 50, 50, 60, 40, 40,  0, 40, 70, 60, 50, 60, 50, 50, 60, 40, 50, 50, 50, 50, 60, 60, 60, 50, 50, 50, 50, 40, 60]
  const ROW_ZANGIEF: seq<int> := [30, 60, 60, 40, 40, 70, 30, 60, 60, 60, 60, 40, 60, 60, 40, 50, 60,  0, 40, 40, 50, 30, 40, 40, 40, 40, 70, 60, 50, 60, 50, 40, 50, 60, 60, 50, 60, 50, 70]
  const ROW_DHALSIM: seq<int> := [40, 30, 40, 40, 40, 40, 50, 60, 60, 40, 30, 60, 40, 50, 60, 60, 30, 60,  0, 60, 40, 60, 60, 40, 50, 60, 50, 60, 50, 40, 70, 50, 50, 60, 50, 60, 50, 60, 70]
  const ROW_GUILE: seq<int> := [40, 40, 60, 40, 50, 60, 50, 60, 40, 40, 40, 40, 40, 70, 50, 60, 40, 60, 40,  0, 50, 60, 50, 60, 40, 50, 40, 50, 40, 50, 60, 50, 50, 60, 50, 50, 60, 70, 60]
  const ROW_SAKURA: seq<int> := [60, 50, 50, 40, 50, 40, 40, 40, 40, 50, 50, 50, 50, 40, 40, 50, 50, 50, 60, 50,  0, 50, 50, 60, 50, 60, 50, 50, 50, 50, 40, 60, 50, 50, 60, 60, 60, 60, 60]
  const ROW_CHUN_LI: seq<int> := [40, 40, 50, 40, 40, 40, 60, 60, 50, 50, 60, 50, 60, 50, 50, 40, 40, 70, 40, 40, 50,  0, 50, 50, 50, 50, 50, 50, 60, 50, 60, 50, 50, 50, 50, 50, 50, 60, 60]
  const ROW_DEE_JAY: seq<int> := [50, 50, 60, 50, 40, 60, 50, 50, 50, 40, 50, 40, 50, 40, 50, 40, 50, 60, 40, 50, 50, 50,  0, 50, 40, 50, 50, 50, 50, 60, 60, 50, 50, 50, 50, 50, 50, 70, 60]
  const ROW_JURI: seq<int> := [40, 60, 40, 50, 40, 50, 60, 50, 50, 50, 60, 40, 50, 40, 50, 50, 50, 60, 60, 40, 40, 50, 50,  0, 50, 50, 50, 50, 40, 40, 40, 50, 50, 50, 60, 60, 60, 70, 60]
  const ROW_ROSE: seq<int> := [40, 40, 40, 50, 60, 30, 40, 40, 40, 50, 50, 40, 40, 50, 60, 60, 40, 60, 50, 60, 50, 50, 60, 50,  0, 60, 60, 50, 60, 40, 40, 50, 50, 60, 50, 50, 60, 60, 60]
  const ROW_GOUKEN: seq<int> := [40, 40, 40, 40, 50, 60, 50, 50, 40, 50, 40, 40, 50, 50, 50, 50, 60, 60, 40, 50, 40, 50, 50, 50, 40,  0, 40, 40, 60, 60, 60, 50, 50, 60, 60, 60, 50, 60, 60]
  const ROW_GUY: seq<int> := [60, 50, 50, 40, 50, 60, 40, 40, 50, 40, 50, 40, 50, 50, 50, 50, 50, 30, 50, 60, 50, 50, 50, 50, 40, 60,  0, 40, 50, 60, 50, 50, 50, 50, 60, 60, 60, 40, 60]
  const ROW_CODY: seq<int> := [40, 40, 40, 50, 50, 50, 40, 50, 50, 50, 50, 40, 50, 50, 50, 40, 50, 40, 40, 50, 50, 50, 50, 50, 50, 60, 60,  0, 40, 40, 50, 50, 50, 60, 60, 60, 60, 60, 60]
  const ROW_FUERTE: seq<int> := [50, 50, 40, 40, 50, 40, 50, 50, 40, 50, 50, 40, 40, 40, 50, 50, 50, 50, 50, 60, 50, 40, 50, 60, 40, 40, 50, 60,  0, 60, 50, 50, 50, 50, 60, 60, 50, 60, 50]
  const ROW_YANG: seq<int> := [40, 50, 50, 50, 50, 40, 40, 40, 50, 50, 50, 60, 50, 50, 50, 40, 50, 40, 60, 50, 50, 50, 40, 60, 60, 40, 40, 60, 40,  0, 50, 60, 50, 50, 50, 50, 60, 40, 60]
  const ROW_EHONDA: seq<int> := [40, 50, 40, 40, 40, 40, 40, 50, 60, 50, 40, 50, 60, 60, 40, 50, 40, 50, 30, 40, 60, 40, 40, 60, 60, 40, 50, 50, 50, 50,  0, 60, 60, 50, 50, 50, 60, 60, 60]
  const ROW_GEN: seq<int> := [50, 40, 40, 40, 50, 50, 50, 50, 50, 50, 40, 50, 50, 50, 50, 40, 40, 60, 50, 50, 40, 50, 50, 50, 50, 50, 50, 50, 50, 40, 40,  0, 50, 50, 50, 50, 50, 70, 60]
  const ROW_VEGA: seq<int> := [40, 50, 40, 40, 50, 40, 40, 50, 50, 40, 40, 60, 40, 50, 40, 50, 40, 50, 50, 50, 50, 50, 50, 50, 50, 50, 50, 50, 50, 50, 40, 50,  0, 50, 50, 50, 60, 60, 60]
  const ROW_DUDLEY: seq<int> := [40, 50, 50, 50, 50, 50, 60, 40, 50, 50, 50, 50, 40, 50, 50, 50, 50, 40, 40, 40, 50, 50, 50, 50, 40, 40, 50, 40, 50, 50, 50, 50, 50,  0, 50, 50, 50, 40, 60]
  const ROW_ONI: seq<int> := [40, 40, 40, 50, 40, 40, 50, 40, 50, 40, 40, 50, 40, 50, 40, 50, 50, 40, 50, 50, 40, 50, 50, 40, 50, 40, 40, 40, 40, 50, 50, 50, 50, 50,  0, 60, 50, 60, 60]
  const ROW_EVIL_RYU: seq<int> := [50, 40, 40, 40, 50, 40, 40, 50, 40, 40, 40, 50, 50, 50, 40, 50, 50, 50, 40, 50, 40, 50, 50, 40, 50, 40, 40, 40, 40, 50, 50, 50, 50, 50, 40,  0, 50, 60, 60]
  const ROW_HAKAN: seq<int> := [40, 50, 40, 40, 40, 40, 40, 50, 40, 40, 40, 60, 40, 40, 40, 40, 50, 40, 50, 40, 40, 50, 50, 40, 40, 50, 40, 40, 50, 40, 40, 50, 40, 50, 50, 50,  0, 50, 60]
  const ROW_THAWK: seq<int> := [30, 40, 40, 40, 40, 50, 30, 50, 60, 60, 60, 20, 40, 50, 40, 50, 60, 50, 40, 30, 40, 40, 30, 30, 40, 40, 60, 40, 40, 60, 40, 30, 40, 60, 40, 40, 50,  0, 60]
  const ROW_DAN: seq<int> := [30, 40, 40, 40, 40, 30, 40, 40, 40, 40, 50, 40, 30, 40, 30, 40, 40, 30, 30, 40, 40, 40, 40, 40, 40, 40, 40, 40, 50, 40, 40, 40, 40, 40, 40, 40, 40, 40,  0]

  const EFFICIENCY: seq<seq<int>> := [
    ROW_SETH,
    ROW_CVIPER,
    ROW_CAMMY,
    ROW_AKUMA,
    ROW_FLONG,
    ROW_RUFUS,
    ROW_SAGAT,
    ROW_BALROG,
    ROW_ADON,
    ROW_IBUKI,
    ROW_ABEL,
    ROW_BLANKA,
    ROW_MAKOTO,
    ROW_BISON,
    ROW_RYU,
    ROW_KEN,
    ROW_YUN,
    ROW_ZANGIEF,
    ROW_DHALSIM,
    ROW_GUILE,
    ROW_SAKURA,
    ROW_CHUN_LI,
    ROW_DEE_JAY,
    ROW_JURI,
    ROW_ROSE,
    ROW_GOUKEN,
    ROW_GUY,
    ROW_CODY,
    ROW_FUERTE,
    ROW_YANG,
    ROW_EHONDA,
    ROW_GEN,
    ROW_VEGA,
    ROW_DUDLEY,
    ROW_ONI,
    ROW_EVIL_RYU,
    ROW_HAKAN,
    ROW_THAWK,
    ROW_DAN
  ]

  /** The chances the chart uses. */
  const CHANCES: set<int> := {0, 20, 30, 40, 50, 60, 70, 80}

  /** A row of the chart: one entry per defending character, each one of the chances. */
  predicate ChartRow(row: seq<int>)
  {
    |row| == COUNT && RowWithin(row, CHANCES)
  }

  lemma ChartRowsSethToAkuma()
    ensures ChartRow(ROW_SETH) && ChartRow(ROW_CVIPER)
    ensures ChartRow(ROW_CAMMY) && ChartRow(ROW_AKUMA)
  {
    assert ChartRow(ROW_SETH);
    assert ChartRow(ROW_CVIPER);
    assert ChartRow(ROW_CAMMY);
    assert ChartRow(ROW_AKUMA);
  }

  lemma ChartRowsFLongToBalrog()
    ensures ChartRow(ROW_FLONG) && ChartRow(ROW_RUFUS)
    ensures ChartRow(ROW_SAGAT) && ChartRow(ROW_BALROG)
  {
    assert ChartRow(ROW_FLONG);
    assert ChartRow(ROW_RUFUS);
    assert ChartRow(ROW_SAGAT);
    assert ChartRow(ROW_BALROG);
  }

  lemma ChartRowsAdonToBlanka()
    ensures ChartRow(ROW_ADON) && ChartRow(ROW_IBUKI)
    ensures ChartRow(ROW_ABEL) && ChartRow(ROW_BLANKA)
  {
    assert ChartRow(ROW_ADON);
    assert ChartRow(ROW_IBUKI);
    assert ChartRow(ROW_ABEL);
    assert ChartRow(ROW_BLANKA);
  }

  lemma ChartRowsMakotoToKen()
    ensures ChartRow(ROW_MAKOTO) && ChartRow(ROW_BISON)
    ensures ChartRow(ROW_RYU) && ChartRow(ROW_KEN)
  {
    assert ChartRow(ROW_MAKOTO);
    assert ChartRow(ROW_BISON);
    assert ChartRow(ROW_RYU);
    assert ChartRow(ROW_KEN);
  }

  lemma ChartRowsYunToGuile()
    ensures ChartRow(ROW_YUN) && ChartRow(ROW_ZANGIEF)
    ensures ChartRow(ROW_DHALSIM) && ChartRow(ROW_GUILE)
  {
    assert ChartRow(ROW_YUN);
    assert ChartRow(ROW_ZANGIEF);
    assert ChartRow(ROW_DHALSIM);
    assert ChartRow(ROW_GUILE);
  }

  lemma ChartRowsSakuraToJuri()
    ensures ChartRow(ROW_SAKURA) && ChartRow(ROW_CHUN_LI)
    ensures ChartRow(ROW_DEE_JAY) && ChartRow(ROW_JURI)
  {
    assert ChartRow(ROW_SAKURA);
    assert ChartRow(ROW_CHUN_LI);
    assert ChartRow(ROW_DEE_JAY);
    assert ChartRow(ROW_JURI);
  }

  lemma ChartRowsRoseToCody()
    ensures ChartRow(ROW_ROSE) && ChartRow(ROW_GOUKEN)
    ensures ChartRow(ROW_GUY) && ChartRow(ROW_CODY)
  {
    assert ChartRow(ROW_ROSE);
    assert ChartRow(ROW_GOUKEN);
    assert ChartRow(ROW_GUY);
    assert ChartRow(ROW_CODY);
  }

  lemma ChartRowsFuerteToGen()
    ensures ChartRow(ROW_FUERTE) && ChartRow(ROW_YANG)
    ensures ChartRow(ROW_EHONDA) && ChartRow(ROW_GEN)
  {
    assert ChartRow(ROW_FUERTE);
    assert ChartRow(ROW_YANG);
    assert ChartRow(ROW_EHONDA);
    assert ChartRow(ROW_GEN);
  }

  lemma ChartRowsVegaToEvilRyu()
    ensures ChartRow(ROW_VEGA) && ChartRow(ROW_DUDLEY)
    ensures ChartRow(ROW_ONI) && ChartRow(ROW_EVIL_RYU)
  {
    assert ChartRow(ROW_VEGA);
    assert ChartRow(ROW_DUDLEY);
    assert ChartRow(ROW_ONI);
    assert ChartRow(ROW_EVIL_RYU);
  }

  lemma ChartRowsHakanToDan()
    ensures ChartRow(ROW_HAKAN) && ChartRow(ROW_THAWK)
    ensures ChartRow(ROW_DAN)
  {
    assert ChartRow(ROW_HAKAN);
    assert ChartRow(ROW_THAWK);
    assert ChartRow(ROW_DAN);
  }

  /** The chart is 39 by 39 and every entry is one of the chances. */
  lemma ChartShape()
    ensures SquareWithin(EFFICIENCY, COUNT, CHANCES)
  {
    ChartRowsSethToAkuma();
    ChartRowsFLongToBalrog();
    ChartRowsAdonToBlanka();
    ChartRowsMakotoToKen();
    ChartRowsYunToGuile();
    ChartRowsSakuraToJuri();
    ChartRowsRoseToCody();
    ChartRowsFuerteToGen();
    ChartRowsVegaToEvilRyu();
    ChartRowsHakanToDan();
    assert forall row :: row in EFFICIENCY ==> ChartRow(row);
  }

  /** `get_effectiveness`: the attacker's chance to win against the defender. */
  function Effectiveness(attacker: Kind, defender: Kind): (e: int)
    ensures e in CHANCES && 0 <= e <= 80
  {
    var row := Row(Repr(attacker));
    assert RowWithin(row, CHANCES) && row[Repr(defender)] in row;
    row[Repr(defender)]
  }

  /** The row of chances for the attacking character with discriminant `i`. */
  function Row(i: nat): (row: seq<int>)
    requires i < COUNT
    ensures ChartRow(row)
  {
    ChartShape();
    assert EFFICIENCY[i] in EFFICIENCY;
    EFFICIENCY[i]
  }

  lemma Diagonal0To5(i: nat)
    requires 0 <= i < 6
    ensures EFFICIENCY[i][i] == 0
  {
    if i == 0 {} else if i == 1 {} else if i == 2 {} else if i == 3 {} else if i == 4 {} else {}
  }

  lemma Diagonal6To11(i: nat)
    requires 6 <= i < 12
    ensures EFFICIENCY[i][i] == 0
  {
    if i == 6 {} else if i == 7 {} else if i == 8 {} else if i == 9 {} else if i == 10 {} else {}
  }

  lemma Diagonal12To17(i: nat)
    requires 12 <= i < 18
    ensures EFFICIENCY[i][i] == 0
  {
    if i == 12 {} else if i == 13 {} else if i == 14 {} else if i == 15 {} else if i == 16 {} else {}
  }

  lemma Diagonal18To23(i: nat)
    requires 18 <= i < 24
    ensures EFFICIENCY[i][i] == 0
  {
    if i == 18 {} else if i == 19 {} else if i == 20 {} else if i == 21 {} else if i == 22 {} else {}
  }

  lemma Diagonal24To29(i: nat)
    requires 24 <= i < 30
    ensures EFFICIENCY[i][i] == 0
  {
    if i == 24 {} else if i == 25 {} else if i == 26 {} else if i == 27 {} else if i == 28 {} else {}
  }

  lemma Diagonal30To34(i: nat)
    requires 30 <= i < 35
    ensures EFFICIENCY[i][i] == 0
  {
    if i == 30 {} else if i == 31 {} else if i == 32 {} else if i == 33 {} else {}
  }

  lemma Diagonal35To38(i: nat)
    requires 35 <= i < 39
    ensures EFFICIENCY[i][i] == 0
  {
    if i == 35 {} else if i == 36 {} else if i == 37 {} else {}
  }

  /** The diagonal of the chart is 0: a character has no chance against its own kind. */
  lemma SameKindHasNoChance(k: Kind)
    ensures Effectiveness(k, k) == 0
  {
    var i := Repr(k);
    if i < 6 { Diagonal0To5(i); }
    else if i < 12 { Diagonal6To11(i); }
    else if i < 18 { Diagonal12To17(i); }
    else if i < 24 { Diagonal18To23(i); }
    else if i < 30 { Diagonal24To29(i); }
    else if i < 35 { Diagonal30To34(i); }
    else { Diagonal35To38(i); }
  }

  // ---------------------------------------------------------------------------------------------
  // A fighter

  const HEALTH: int := 100
  const DAMAGE: int := 100

  /** The fields of a `StreetFighter` other than its random number generator, whose draw is the
      roll passed to `FightRule`. */
  datatype StreetFighter = StreetFighter(health: int, damage: int, kind: Kind)

  /** `StreetFighter::new`, and the state `reset` leaves behind. */
  function Spawn(kind: Kind): (p: StreetFighter)
    ensures Fresh(p) && p.kind == kind
  {
    StreetFighter(HEALTH, DAMAGE, kind)
  }

  /** `fight` on values, given the defender's draw `roll` from 0..=100: the defender's new state
      and whether it died. */
  function FightRule(attacker: StreetFighter, defender: StreetFighter, roll: Battle.Roll): (StreetFighter, bool)
  {
    if roll < Effectiveness(attacker.kind, defender.kind) then (Spawn(attacker.kind), true)
    else (defender, false)
  }

  /** The defender dies exactly when the roll is below the attacker's chance; a dead defender is
      reborn with full health and damage as the attacker's character, and a surviving one keeps its
      health, damage and character. */
  lemma FightOutcome(attacker: StreetFighter, defender: StreetFighter, roll: Battle.Roll)
    ensures FightRule(attacker, defender, roll).1 <==> roll < Effectiveness(attacker.kind, defender.kind)
    ensures FightRule(attacker, defender, roll).1 ==>
              var d := FightRule(attacker, defender, roll).0;
              d.health == HEALTH && d.damage == DAMAGE && d.kind == attacker.kind
    ensures !FightRule(attacker, defender, roll).1 ==> FightRule(attacker, defender, roll).0 == defender
  {
  }

  /** A chance of 0, which every fight between two fighters of the same character has, never kills:
      the defender is left as it was whatever the roll. */
  lemma NoChanceNeverKills(attacker: StreetFighter, defender: StreetFighter, roll: Battle.Roll)
    requires Effectiveness(attacker.kind, defender.kind) == 0 || attacker.kind == defender.kind
    ensures FightRule(attacker, defender, roll) == (defender, false)
  {
    SameKindHasNoChance(attacker.kind);
  }

  /** No matchup is certain: a roll of 80 or more never kills. */
  lemma HighRollsSurvive(attacker: StreetFighter, defender: StreetFighter, roll: Battle.Roll)
    requires roll >= 80
    ensures !FightRule(attacker, defender, roll).1
  {
  }

  /** The rolls that kill. */
  ghost function KillingRolls(attacker: StreetFighter, defender: StreetFighter): set<Battle.Roll>
  {
    set roll: Battle.Roll | FightRule(attacker, defender, roll).1
  }

  /** Exactly `Effectiveness` of the 101 possible rolls kill, so with a uniform die the chance to
      win is `Effectiveness / 101`. */
  lemma KillingRollCount(attacker: StreetFighter, defender: StreetFighter)
    ensures |KillingRolls(attacker, defender)| == Effectiveness(attacker.kind, defender.kind)
  {
    var e := Effectiveness(attacker.kind, defender.kind);
    assert KillingRolls(attacker, defender) == Below(e);
    BelowCount(e);
  }

  /** The rolls `0, 1, …, n - 1`. */
  ghost function Below(n: nat): (s: set<Battle.Roll>)
    requires n <= 101
    ensures forall roll: int :: roll in s <==> 0 <= roll < n
  {
    if n == 0 then {} else Below(n - 1) + {n - 1}
  }

  lemma {:induction false} BelowCount(n: nat)
    requires n <= 101
    ensures |Below(n)| == n
  {
    if n > 0 {
      BelowCount(n - 1);
      assert n - 1 !in Below(n - 1);
    }
  }

  /** The state every fighter on the grid stays in. */
  predicate Fresh(p: StreetFighter)
  {
    p.health == HEALTH && p.damage == DAMAGE
  }

  /** The `Fighter` contract for street fighter. */
  const Rules: Battle.Fighter<StreetFighter> := Battle.Fighter(
    (a: StreetFighter, d: StreetFighter) => a.kind != d.kind,
    (a: StreetFighter, d: StreetFighter) => Effectiveness(a.kind, d.kind),
    (a: StreetFighter, d: StreetFighter, roll: Battle.Roll) => FightRule(a, d, roll))

  /** A grid of fresh fighters stays fresh through a whole tick, and no character appears that was
      not on the grid before. */
  lemma TickKeepsFreshAndKinds(size: Grid.Size, s: Battle.Strategy, cells: seq<StreetFighter>,
                               draws: Battle.Draws, kinds: set<Kind>)
    requires Battle.ValidTick(Battle.Config(Rules, s, size), cells, draws)
    requires forall i :: 0 <= i < |cells| ==> Fresh(cells[i]) && cells[i].kind in kinds
    ensures var next := Battle.Tick(Battle.Config(Rules, s, size), cells, draws);
            forall i :: 0 <= i < |next| ==> Fresh(next[i]) && next[i].kind in kinds
  {
    var P := (p: StreetFighter) => Fresh(p) && p.kind in kinds;
    forall a: StreetFighter, d: StreetFighter, roll: Battle.Roll | P(a) && P(d)
      ensures P(Rules.fight(a, d, roll).0)
    {
      FightOutcome(a, d, roll);
    }
    Battle.TickPreserves(Battle.Config(Rules, s, size), cells, draws, P);
  }

  // ---------------------------------------------------------------------------------------------
  // The struct, updated in place

  /** A `StreetFighter` whose fields `fight` and `reset` overwrite. */
  class Contender {
    var health: int
    var damage: int
    var kind: Kind

    function Value(): StreetFighter
      reads this
    {
      StreetFighter(health, damage, kind)
    }

    constructor (kind: Kind)
      ensures Value() == Spawn(kind)
    {
      health, damage, this.kind := HEALTH, DAMAGE, kind;
    }

    method Reset(kind: Kind)
      modifies this
      ensures Value() == Spawn(kind)
    {
      health := HEALTH;
      damage := DAMAGE;
      this.kind := kind;
    }

    /** `fight`, with the defender's draw as `roll`: only the defender changes. */
    method Fight(defender: Contender, roll: Battle.Roll) returns (dead: bool)
      requires defender != this
      modifies defender
      ensures (defender.Value(), dead) == FightRule(Value(), old(defender.Value()), roll)
    {
      var effectiveness := Effectiveness(kind, defender.kind);
      if roll < effectiveness {
        defender.Reset(kind);
        dead := true;
      } else {
        dead := false;
      }
    }
  }
}
