/** The interchangeable weapons of a character. Each variant is stateless
    and its `useWeapon` is const: it only emits a fixed line. The knife
    prints the sword's line, so two variants cannot be told apart by what
    they print. */
module Weapons {

  datatype WeaponBehavior = SwordBehavior | KnifeBehavior | BowAndArrowBehavior | AxeBehavior

  /** The line a variant prints. */
  function UseWeapon(weapon: WeaponBehavior): (line: string)
    ensures weapon == SwordBehavior ==> line == "I'm fighting with sword!"
    ensures weapon == KnifeBehavior ==> line == "I'm fighting with sword!"
    ensures weapon == BowAndArrowBehavior ==> line == "I'm shooting with bow!"
    ensures weapon == AxeBehavior ==> line == "I'm fighting with axe!"
  {
    match weapon
    case SwordBehavior => "I'm fighting with sword!"
    case KnifeBehavior => "I'm fighting with sword!"
    case BowAndArrowBehavior => "I'm shooting with bow!"
    case AxeBehavior => "I'm fighting with axe!"
  }

  predicate IsBlade(weapon: WeaponBehavior)
  {
    weapon == SwordBehavior || weapon == KnifeBehavior
  }

  /** Two weapons print the same line exactly when they are the same weapon
      or both are blades (sword and knife). */
  lemma {:induction false} UseWeaponDistinguishes(a: WeaponBehavior, b: WeaponBehavior)
    ensures UseWeapon(a) == UseWeapon(b) <==> a == b || (IsBlade(a) && IsBlade(b))
  {
  }
}
