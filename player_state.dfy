/**
 * AAriaPlayerState's XP system: four integer counters, each change broadcast once on its
 * own delegate with the value after the change. The delegates are modelled as one log.
 */
module PlayerState {
  datatype StatEvent =
    | XPChanged(xp: int)
    | LevelChanged(level: int)
    | AttributePointsChanged(attributePoints: int)
    | AbilityPointsChanged(abilityPoints: int)

  class AriaPlayerState {
    var xp: int
    var level: int
    var attributePoints: int
    var abilityPoints: int
    /** Everything broadcast so far, oldest first. */
    var broadcasts: seq<StatEvent>

    /** The counters' initial values in the class defaults. */
    constructor ()
      ensures xp == 0 && level == 1 && attributePoints == 0 && abilityPoints == 0
      ensures broadcasts == []
    {
      xp, level, attributePoints, abilityPoints := 0, 1, 0, 0;
      broadcasts := [];
    }

    /** AddToXP: XP grows by the (signed) amount; nothing else changes. */
    method AddToXP(inXP: int)
      modifies this
      ensures xp == old(xp) + inXP
      ensures level == old(level) && attributePoints == old(attributePoints) && abilityPoints == old(abilityPoints)
      ensures broadcasts == old(broadcasts) + [XPChanged(xp)]
    {
      xp := xp + inXP;
      broadcasts := broadcasts + [XPChanged(xp)];
    }

    /** AddToLevel: the level grows by the (signed) amount; nothing else changes. */
    method AddToLevel(inLevel: int)
      modifies this
      ensures level == old(level) + inLevel
      ensures xp == old(xp) && attributePoints == old(attributePoints) && abilityPoints == old(abilityPoints)
      ensures broadcasts == old(broadcasts) + [LevelChanged(level)]
    {
      level := level + inLevel;
      broadcasts := broadcasts + [LevelChanged(level)];
    }

    /** AddToAttributePoints: a signed amount with no lower bound, so the pool may go negative. */
    method AddToAttributePoints(inAttributePoints: int)
      modifies this
      ensures attributePoints == old(attributePoints) + inAttributePoints
      ensures xp == old(xp) && level == old(level) && abilityPoints == old(abilityPoints)
      ensures broadcasts == old(broadcasts) + [AttributePointsChanged(attributePoints)]
    {
      attributePoints := attributePoints + inAttributePoints;
      broadcasts := broadcasts + [AttributePointsChanged(attributePoints)];
    }

    /** AddToAbilityPoints: a signed amount with no lower bound, so the pool may go negative. */
    method AddToAbilityPoints(inAbilityPoints: int)
      modifies this
      ensures abilityPoints == old(abilityPoints) + inAbilityPoints
      ensures xp == old(xp) && level == old(level) && attributePoints == old(attributePoints)
      ensures broadcasts == old(broadcasts) + [AbilityPointsChanged(abilityPoints)]
    {
      abilityPoints := abilityPoints + inAbilityPoints;
      broadcasts := broadcasts + [AbilityPointsChanged(abilityPoints)];
    }

    /** SetXP replaces the XP total. */
    method SetXP(inXP: int)
      modifies this
      ensures xp == inXP
      ensures level == old(level) && attributePoints == old(attributePoints) && abilityPoints == old(abilityPoints)
      ensures broadcasts == old(broadcasts) + [XPChanged(inXP)]
    {
      xp := inXP;
      broadcasts := broadcasts + [XPChanged(xp)];
    }

    /** SetLevel, as written, ADDS its argument to the level instead of replacing it. */
    method SetLevel(inLevel: int)
      modifies this
      ensures level == old(level) + inLevel
      ensures xp == old(xp) && attributePoints == old(attributePoints) && abilityPoints == old(abilityPoints)
      ensures broadcasts == old(broadcasts) + [LevelChanged(level)]
    {
      level := level + inLevel;
      broadcasts := broadcasts + [LevelChanged(level)];
    }
  }

  /** A pool can be driven below zero: nothing in AddToAbilityPoints guards it. */
  method PoolsCanGoNegative() returns (ps: AriaPlayerState)
    ensures fresh(ps) && ps.abilityPoints == -1 && ps.attributePoints == -1
  {
    ps := new AriaPlayerState();
    ps.AddToAbilityPoints(-1);
    ps.AddToAttributePoints(-1);
  }

  /** SetLevel(n) on a level-1 player gives 1 + n, not n: calling it twice accumulates. */
  method SetLevelAccumulates() returns (ps: AriaPlayerState)
    ensures fresh(ps) && ps.level == 7
    ensures ps.broadcasts == [LevelChanged(4), LevelChanged(7)]
  {
    ps := new AriaPlayerState();
    ps.SetLevel(3);
    ps.SetLevel(3);
  }
}
