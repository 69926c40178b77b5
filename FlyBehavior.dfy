/** The interchangeable flying behaviours of a duck. Each variant is
    stateless and its `fly` is const: it only emits a fixed line, so a
    variant is a value and `fly` a function of it. */
module FlyBehaviors {

  datatype FlyBehavior = FlyWithWings | FlyNoWay | FlyRocketPowered

  /** The line a variant prints. */
  function Fly(behavior: FlyBehavior): (line: string)
    ensures behavior == FlyWithWings ==> line == "I'm flying!"
    ensures behavior == FlyNoWay ==> line == "I can't fly"
    ensures behavior == FlyRocketPowered ==> line == "I'm flying with a rocket!"
  {
    match behavior
    case FlyWithWings => "I'm flying!"
    case FlyNoWay => "I can't fly"
    case FlyRocketPowered => "I'm flying with a rocket!"
  }

  /** The printed line tells which variant flew: no two variants share one. */
  lemma {:induction false} FlyDistinguishes(a: FlyBehavior, b: FlyBehavior)
    ensures Fly(a) == Fly(b) <==> a == b
  {
  }
}
