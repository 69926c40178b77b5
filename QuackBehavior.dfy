/** The interchangeable quacking behaviours of a duck. Each variant is
    stateless and its `quack` is const: it only emits a fixed line. */
module QuackBehaviors {

  datatype QuackBehavior = Quack | Squeak | Silence

  /** The line a variant prints. */
  function QuackLine(behavior: QuackBehavior): (line: string)
    ensures behavior == Quack ==> line == "Quack"
    ensures behavior == Squeak ==> line == "Squeak"
    ensures behavior == Silence ==> line == "<< Silence >>"
  {
    match behavior
    case Quack => "Quack"
    case Squeak => "Squeak"
    case Silence => "<< Silence >>"
  }

  /** The printed line tells which variant quacked. */
  lemma {:induction false} QuackDistinguishes(a: QuackBehavior, b: QuackBehavior)
    ensures QuackLine(a) == QuackLine(b) <==> a == b
  {
  }
}
