/**
 * The modifier magnitude calculations (MMCs) that derive secondary attributes from primary
 * ones. Each reads captured attribute magnitudes, treats a negative capture as 0, and returns
 * a float; here the captures are parameters and the floats are reals.
 */
module ModMagCalc {
  import opened UnrealMath
  import opened Wrappers

  /** A value with no fractional part, as FMath::Floor returns. */
  predicate Integral(x: real) { x == x.Floor as real }

  lemma FloorMonotone(x: real, y: real)
    requires x <= y
    ensures x.Floor <= y.Floor
  {
  }

  // ---------------------------------------------------------------- MMC_DodgeChance

  /** UMMC_DodgeChance: 5 plus one point per 10 agility, capped to [5, 50]. */
  function DodgeChance(agility: real): (r: real)
    ensures 5.0 <= r <= 50.0 && Integral(r)
    ensures agility < 10.0 ==> r == 5.0
  {
    var a := MaxR(agility, 0.0);
    ClampR((a / 10.0).Floor as real + 5.0, 5.0, 50.0)
  }

  /** Dodge chance grows one point per full 10 agility until it reaches the cap at 450 agility. */
  lemma DodgeChanceSteps(agility: real)
    requires agility >= 0.0
    ensures DodgeChance(agility) == if agility >= 450.0 then 50.0 else (agility / 10.0).Floor as real + 5.0
  {
    if agility >= 450.0 {
      FloorMonotone(45.0, agility / 10.0);
    } else {
      FloorMonotone(agility / 10.0, 45.0);
    }
  }

  lemma DodgeChanceMonotone(a1: real, a2: real)
    requires a1 <= a2
    ensures DodgeChance(a1) <= DodgeChance(a2)
  {
    FloorMonotone(MaxR(a1, 0.0) / 10.0, MaxR(a2, 0.0) / 10.0);
  }

  // ---------------------------------------------------------------- MMC_CriticalHitChance

  /** UMMC_CriticalHitChance: 5 plus ten points per point of dexterity over agility, capped to [5, 50]. */
  function CriticalHitChance(dexterity: real, agility: real): (r: real)
    ensures 5.0 <= r <= 50.0 && Integral(r)
    ensures MaxR(dexterity, 0.0) <= MaxR(agility, 0.0) ==> r == 5.0
  {
    var dex := MaxR(dexterity, 0.0);
    var agi := MaxR(agility, 0.0);
    ClampR((5.0 + (dex - agi) * 10.0).Floor as real, 5.0, 50.0)
  }

  /** More dexterity never lowers the chance, more agility never raises it. */
  lemma CriticalHitChanceMonotone(dex1: real, dex2: real, agi1: real, agi2: real)
    requires dex1 <= dex2 && agi2 <= agi1
    ensures CriticalHitChance(dex1, agi1) <= CriticalHitChance(dex2, agi2)
  {
    var d1, d2 := MaxR(dex1, 0.0), MaxR(dex2, 0.0);
    var g1, g2 := MaxR(agi1, 0.0), MaxR(agi2, 0.0);
    FloorMonotone(5.0 + (d1 - g1) * 10.0, 5.0 + (d2 - g2) * 10.0);
  }

  // ---------------------------------------------------------------- MMC_Defense, MMC_Attack

  /** UMMC_Defense: one and a half points per resilience, rounded down. */
  function Defense(resilience: real): (r: real)
    ensures r >= 0.0 && Integral(r)
    ensures r <= MaxR(resilience, 0.0) * 1.5 < r + 1.0
  {
    (MaxR(resilience, 0.0) * 1.5).Floor as real
  }

  lemma DefenseMonotone(r1: real, r2: real)
    requires r1 <= r2
    ensures Defense(r1) <= Defense(r2)
  {
    FloorMonotone(MaxR(r1, 0.0) * 1.5, MaxR(r2, 0.0) * 1.5);
  }

  /** UMMC_Attack: two points per strength, rounded down. */
  function Attack(strength: real): (r: real)
    ensures r >= 0.0 && Integral(r)
    ensures r <= MaxR(strength, 0.0) * 2.0 < r + 1.0
  {
    (MaxR(strength, 0.0) * 2.0).Floor as real
  }

  lemma AttackMonotone(s1: real, s2: real)
    requires s1 <= s2
    ensures Attack(s1) <= Attack(s2)
  {
    FloorMonotone(MaxR(s1, 0.0) * 2.0, MaxR(s2, 0.0) * 2.0);
  }

  // ---------------------------------------------------------------- MMC_MagicalDefense

  /** UMMC_MagicalDefense: defense plus spirit, each at least 0, rounded down. */
  function MagicalDefense(defense: real, spirit: real): (r: real)
    ensures r >= 0.0 && Integral(r)
    ensures r <= MaxR(defense, 0.0) + MaxR(spirit, 0.0) < r + 1.0
  {
    (MaxR(defense, 0.0) + MaxR(spirit, 0.0)).Floor as real
  }

  lemma MagicalDefenseMonotone(d1: real, d2: real, s1: real, s2: real)
    requires d1 <= d2 && s1 <= s2
    ensures MagicalDefense(d1, s1) <= MagicalDefense(d2, s2)
  {
    FloorMonotone(MaxR(d1, 0.0) + MaxR(s1, 0.0), MaxR(d2, 0.0) + MaxR(s2, 0.0));
  }

  // ---------------------------------------------------------------- MMC_MaxHealth, MMC_MaxMana

  /**
   * The level the max-health and max-mana formulas use: the source's character level when it
   * implements the combat interface (`Some`), and 1 otherwise.
   */
  function SourceLevel(combatLevel: Option<int>): (r: int)
    ensures combatLevel.None? ==> r == 1
    ensures combatLevel.Some? ==> r == combatLevel.value
  {
    match combatLevel
    case None => 1
    case Some(l) => l
  }

  /** UMMC_MaxHealth: 16.5 health per vitality per level. */
  function MaxHealth(vitality: real, combatLevel: Option<int>): (r: real)
    ensures vitality <= 0.0 ==> r == 0.0
    ensures SourceLevel(combatLevel) >= 0 ==> r >= 0.0
    ensures combatLevel.None? ==> r == MaxR(vitality, 0.0) * 16.5
  {
    MaxR(vitality, 0.0) * 16.5 * SourceLevel(combatLevel) as real
  }

  /** At a non-negative level, more vitality never lowers max health. */
  lemma MaxHealthMonotone(v1: real, v2: real, combatLevel: Option<int>)
    requires v1 <= v2 && SourceLevel(combatLevel) >= 0
    ensures MaxHealth(v1, combatLevel) <= MaxHealth(v2, combatLevel)
  {
    var l := SourceLevel(combatLevel) as real;
    var lo, hi := MaxR(v1, 0.0) * 16.5, MaxR(v2, 0.0) * 16.5;
    calc {
      MaxHealth(v1, combatLevel);
      lo * l;
      <= { MulMonotone(lo, hi, l); }
      hi * l;
      MaxHealth(v2, combatLevel);
    }
  }

  /** UMMC_MaxMana: 8.5 mana per intelligence per level. */
  function MaxMana(intelligence: real, combatLevel: Option<int>): (r: real)
    ensures intelligence <= 0.0 ==> r == 0.0
    ensures SourceLevel(combatLevel) >= 0 ==> r >= 0.0
    ensures combatLevel.None? ==> r == MaxR(intelligence, 0.0) * 8.5
  {
    MaxR(intelligence, 0.0) * 8.5 * SourceLevel(combatLevel) as real
  }

  /** At a non-negative level, more intelligence never lowers max mana. */
  lemma MaxManaMonotone(i1: real, i2: real, combatLevel: Option<int>)
    requires i1 <= i2 && SourceLevel(combatLevel) >= 0
    ensures MaxMana(i1, combatLevel) <= MaxMana(i2, combatLevel)
  {
    var l := SourceLevel(combatLevel) as real;
    var lo, hi := MaxR(i1, 0.0) * 8.5, MaxR(i2, 0.0) * 8.5;
    calc {
      MaxMana(i1, combatLevel);
      lo * l;
      <= { MulMonotone(lo, hi, l); }
      hi * l;
      MaxMana(i2, combatLevel);
    }
  }

  lemma MulMonotone(a: real, b: real, l: real)
    requires a <= b && l >= 0.0
    ensures a * l <= b * l
  {
    assert b * l - a * l == (b - a) * l;
  }
}
