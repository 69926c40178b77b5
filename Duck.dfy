/** A duck holds one quacking and one flying behaviour, each replaceable
    on its own. Performing a behaviour yields the line its current variant
    prints. The two kinds of duck differ only in the behaviours they start
    with, so they are named constructors. */
module Ducks {
  import opened FlyBehaviors
  import opened QuackBehaviors

  class Duck {
    var quackBehavior: QuackBehavior
    var flyBehavior: FlyBehavior

    constructor (quackBehavior: QuackBehavior, flyBehavior: FlyBehavior)
      ensures this.quackBehavior == quackBehavior && this.flyBehavior == flyBehavior
    {
      this.quackBehavior := quackBehavior;
      this.flyBehavior := flyBehavior;
    }

    /** A mallard quacks and flies with wings. */
    constructor MallardDuck()
      ensures quackBehavior == Quack && flyBehavior == FlyWithWings
    {
      quackBehavior := Quack;
      flyBehavior := FlyWithWings;
    }

    /** A model duck is silent and cannot fly. */
    constructor ModelDuck()
      ensures quackBehavior == Silence && flyBehavior == FlyNoWay
    {
      quackBehavior := Silence;
      flyBehavior := FlyNoWay;
    }

    method PerformQuack() returns (line: string)
      ensures line == QuackLine(quackBehavior)
    {
      line := QuackLine(quackBehavior);
    }

    method PerformFly() returns (line: string)
      ensures line == Fly(flyBehavior)
    {
      line := Fly(flyBehavior);
    }

    /** Replaces the flying behaviour; the quacking one stays. */
    method SetFlyBehavior(flyBehavior: FlyBehavior)
      modifies this
      ensures this.flyBehavior == flyBehavior
      ensures quackBehavior == old(quackBehavior)
    {
      this.flyBehavior := flyBehavior;
    }

    /** Replaces the quacking behaviour; the flying one stays. */
    method SetQuackBehavior(quackBehavior: QuackBehavior)
      modifies this
      ensures this.quackBehavior == quackBehavior
      ensures flyBehavior == old(flyBehavior)
    {
      this.quackBehavior := quackBehavior;
    }
  }

  /** The demo: a mallard quacks, flies, and after losing its wings cannot
      fly; a model duck is silent, cannot fly, and then flies with a rocket
      fitted. The lines are those printed by the behaviours, in order. */
  method DuckScenario() returns (lines: seq<string>)
    ensures lines == ["Quack", "I'm flying!", "I can't fly",
                      "<< Silence >>", "I can't fly", "I'm flying with a rocket!"]
  {
    var mallard := new Duck.MallardDuck();
    var quack := mallard.PerformQuack();
    var fly := mallard.PerformFly();
    mallard.SetFlyBehavior(FlyNoWay);
    var grounded := mallard.PerformFly();

    var model := new Duck.ModelDuck();
    var silence := model.PerformQuack();
    var cannot := model.PerformFly();
    model.SetFlyBehavior(FlyRocketPowered);
    var rocket := model.PerformFly();

    lines := [quack, fly, grounded, silence, cannot, rocket];
  }
}
