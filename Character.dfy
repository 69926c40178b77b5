/** A character holds one replaceable weapon and fights with whichever it
    holds now. The four kinds of character differ only in their starting
    weapon, so they are named constructors. */
module Characters {
  import opened Weapons

  class Character {
    var weaponType: WeaponBehavior

    /** Stores exactly the weapon it is given. */
    constructor (weaponType: WeaponBehavior)
      ensures this.weaponType == weaponType
    {
      this.weaponType := weaponType;
    }

    constructor King()
      ensures weaponType == SwordBehavior
    {
      weaponType := SwordBehavior;
    }

    constructor Queen()
      ensures weaponType == KnifeBehavior
    {
      weaponType := KnifeBehavior;
    }

    constructor Troll()
      ensures weaponType == AxeBehavior
    {
      weaponType := AxeBehavior;
    }

    constructor Knight()
      ensures weaponType == BowAndArrowBehavior
    {
      weaponType := BowAndArrowBehavior;
    }

    /** The line of the weapon held now. */
    method Fight() returns (line: string)
      ensures line == UseWeapon(weaponType)
    {
      line := UseWeapon(weaponType);
    }

    /** Announces the change, then holds `weaponType` in place of the old
        weapon. */
    method SetWeapon(weaponType: WeaponBehavior) returns (notice: string)
      modifies this
      ensures notice == "Changing weapon"
      ensures this.weaponType == weaponType
    {
      notice := "Changing weapon";
      this.weaponType := weaponType;
    }
  }

  /** One round of the demo: fight, change weapon, fight again. */
  method Round(character: Character, next: WeaponBehavior) returns (lines: seq<string>)
    modifies character
    ensures lines == [UseWeapon(old(character.weaponType)), "Changing weapon", UseWeapon(next)]
    ensures character.weaponType == next
  {
    var before := character.Fight();
    var notice := character.SetWeapon(next);
    var after := character.Fight();
    lines := [before, notice, after];
  }

  /** The demo: the king trades his sword for an axe, the queen her knife
      for a bow, and the troll his axe for a knife, which fights like a
      sword. */
  method WeaponScenario() returns (king: seq<string>, queen: seq<string>, troll: seq<string>)
    ensures king == ["I'm fighting with sword!", "Changing weapon", "I'm fighting with axe!"]
    ensures queen == ["I'm fighting with sword!", "Changing weapon", "I'm shooting with bow!"]
    ensures troll == ["I'm fighting with axe!", "Changing weapon", "I'm fighting with sword!"]
  {
    var k := new Character.King();
    king := Round(k, AxeBehavior);
    var q := new Character.Queen();
    queen := Round(q, BowAndArrowBehavior);
    var t := new Character.Troll();
    troll := Round(t, KnifeBehavior);
  }
}
