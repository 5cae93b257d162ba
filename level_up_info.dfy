/**
 * ULevelUpInfo: the XP table. Entry 0 is a placeholder; entry L holds the XP needed to
 * leave level L and the point rewards for reaching it.
 */
module LevelUpInfo {
  datatype LevelUpEntry = LevelUpEntry(levelUpRequirement: int, attributePointReward: int, abilityPointReward: int)

  /** FAriaLevelUpInfo's defaults. */
  const DefaultEntry := LevelUpEntry(0, 0, 0)

  /** The level the table walk settles on when it is at `level`. */
  function LevelFrom(info: seq<LevelUpEntry>, xp: int, level: nat): nat
    requires level >= 1
    decreases |info| - level
  {
    if |info| - 1 <= level then level
    else if xp >= info[level].levelUpRequirement then LevelFrom(info, xp, level + 1)
    else level
  }

  /** The level reached with `xp` total XP, starting from level 1. */
  function LevelForXP(info: seq<LevelUpEntry>, xp: int): nat
  {
    LevelFrom(info, xp, 1)
  }

  /**
   * FindLevelBasedOnTotalXP: walk the table from level 1 while the XP meets each
   * level's requirement, never passing the last entry.
   */
  method FindLevelBasedOnTotalXP(info: seq<LevelUpEntry>, xpAmount: int) returns (level: int)
    ensures level == LevelForXP(info, xpAmount)
    ensures 1 <= level
    ensures |info| <= 2 ==> level == 1
    ensures |info| >= 2 ==> level <= |info| - 1
    ensures forall l :: 1 <= l < level ==> xpAmount >= info[l].levelUpRequirement
    ensures level < |info| - 1 ==> xpAmount < info[level].levelUpRequirement
    ensures level - 1 <= if |info| >= 2 then |info| - 2 else 0
  {
    level := 1;
    var searching := true;
    while searching
      invariant 1 <= level
      invariant |info| >= 2 ==> level <= |info| - 1
      invariant |info| < 2 ==> level == 1
      invariant forall l :: 1 <= l < level ==> xpAmount >= info[l].levelUpRequirement
      invariant searching ==> LevelFrom(info, xpAmount, level) == LevelForXP(info, xpAmount)
      invariant !searching ==> level < |info| - 1 && xpAmount < info[level].levelUpRequirement
                               && level == LevelForXP(info, xpAmount)
      decreases |info| - level, searching
    {
      if |info| - 1 <= level {
        return;
      }
      if xpAmount >= info[level].levelUpRequirement {
        level := level + 1;
      } else {
        searching := false;
      }
    }
  }

  /** Starting higher never lands lower. */
  lemma {:induction false} LevelFromAtLeastStart(info: seq<LevelUpEntry>, xp: int, level: nat)
    requires level >= 1
    ensures LevelFrom(info, xp, level) >= level
    decreases |info| - level
  {
    if |info| - 1 > level && xp >= info[level].levelUpRequirement {
      LevelFromAtLeastStart(info, xp, level + 1);
    }
  }

  /** The walk never passes the last entry of the table. */
  lemma {:induction false} LevelFromAtMostLast(info: seq<LevelUpEntry>, xp: int, level: nat)
    requires 1 <= level <= |info| - 1
    ensures LevelFrom(info, xp, level) <= |info| - 1
    decreases |info| - level
  {
    if |info| - 1 > level && xp >= info[level].levelUpRequirement {
      LevelFromAtMostLast(info, xp, level + 1);
    }
  }

  /** LevelForXP lies in [1, |info| - 1] for a table with two entries or more, and is 1 otherwise. */
  lemma LevelForXPBounds(info: seq<LevelUpEntry>, xp: int)
    ensures LevelForXP(info, xp) >= 1
    ensures |info| >= 2 ==> LevelForXP(info, xp) <= |info| - 1
    ensures |info| <= 2 ==> LevelForXP(info, xp) == 1
  {
    LevelFromAtLeastStart(info, xp, 1);
    if |info| >= 2 {
      LevelFromAtMostLast(info, xp, 1);
    }
  }

  lemma {:induction false} LevelFromMonotone(info: seq<LevelUpEntry>, xp1: int, xp2: int, level: nat)
    requires level >= 1 && xp1 <= xp2
    ensures LevelFrom(info, xp1, level) <= LevelFrom(info, xp2, level)
    decreases |info| - level
  {
    if |info| - 1 > level {
      if xp1 >= info[level].levelUpRequirement {
        LevelFromMonotone(info, xp1, xp2, level + 1);
      } else {
        LevelFromAtLeastStart(info, xp2, level);
      }
    }
  }

  /** More XP never yields a lower level, whatever the table holds. */
  lemma LevelForXPMonotone(info: seq<LevelUpEntry>, xp1: int, xp2: int)
    requires xp1 <= xp2
    ensures LevelForXP(info, xp1) <= LevelForXP(info, xp2)
  {
    LevelFromMonotone(info, xp1, xp2, 1);
  }

  /**
   * The walk's result is the unique level L in [1, max(|info|-1, 1)] such that every
   * requirement below L is met and, unless L is the last level, L's own is not.
   */
  lemma {:induction false} LevelFromCharacterized(info: seq<LevelUpEntry>, xp: int, level: nat, l: nat)
    requires 1 <= level <= l
    requires |info| >= 2 ==> l <= |info| - 1
    requires |info| < 2 ==> l == 1
    requires forall k :: level <= k < l ==> xp >= info[k].levelUpRequirement
    requires l < |info| - 1 ==> xp < info[l].levelUpRequirement
    ensures LevelFrom(info, xp, level) == l
    decreases |info| - level
  {
    if |info| - 1 > level && level < l {
      LevelFromCharacterized(info, xp, level + 1, l);
    }
  }

  lemma LevelForXPUnique(info: seq<LevelUpEntry>, xp: int, l: nat)
    requires 1 <= l
    requires |info| >= 2 ==> l <= |info| - 1
    requires |info| < 2 ==> l == 1
    requires forall k :: 1 <= k < l ==> xp >= info[k].levelUpRequirement
    requires l < |info| - 1 ==> xp < info[l].levelUpRequirement
    ensures LevelForXP(info, xp) == l
  {
    LevelFromCharacterized(info, xp, 1, l);
  }

  /**
   * What the walk establishes about the level it returns: every requirement from the start
   * up to it is met, and, unless it is the last level, its own is not.
   */
  lemma {:induction false} LevelFromFacts(info: seq<LevelUpEntry>, xp: int, level: nat)
    requires level >= 1
    ensures forall l :: level <= l < LevelFrom(info, xp, level) ==> l < |info| - 1 && xp >= info[l].levelUpRequirement
    ensures LevelFrom(info, xp, level) < |info| - 1 ==> xp < info[LevelFrom(info, xp, level)].levelUpRequirement
    decreases |info| - level
  {
    if |info| - 1 > level && xp >= info[level].levelUpRequirement {
      LevelFromFacts(info, xp, level + 1);
    }
  }
}
