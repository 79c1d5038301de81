/**
 * The three packages of the tracker's tests, read and summarised exactly,
 * and the three-decimal figures their expected messages show.
 */
module Scenarios {
  import opened Wrappers
  import opened Trainings
  import opened Packages

  /**
   * `x` printed with three decimals reads `thousandths / 1000`
   * (round to nearest; exact ties are not considered).
   */
  predicate ShowsAs(x: real, thousandths: int)
  {
    (thousandths as real - 0.5) / 1000.0 <= x < (thousandths as real + 0.5) / 1000.0
  }

  /** SWM [720, 1, 80, 25, 40]: 0.994 km, 1.000 km/h, 336.000 kcal. */
  lemma SwimmingScenario()
    ensures ReadPackage("SWM", [720.0, 1.0, 80.0, 25.0, 40.0]) == Success(Swimming(720.0, 1.0, 80.0, 25.0, 40.0))
    ensures ShowTrainingInfo(Swimming(720.0, 1.0, 80.0, 25.0, 40.0))
         == Some(InfoMessage("Swimming", 1.0, 0.9936, 1.0, 336.0))
    ensures ShowsAs(1.0, 1000) && ShowsAs(0.9936, 994) && ShowsAs(336.0, 336000)
  {
  }

  /** RUN [1206, 12, 6]: 0.784 km, 0.065 km/h, 12.812 kcal. */
  lemma RunningScenario()
    ensures ReadPackage("RUN", [1206.0, 12.0, 6.0]) == Success(Running(1206.0, 12.0, 6.0))
    ensures ShowTrainingInfo(Running(1206.0, 12.0, 6.0))
         == Some(InfoMessage("Running", 12.0, 0.7839, 0.065325, 12.812472))
    ensures ShowsAs(12.0, 12000) && ShowsAs(0.7839, 784) && ShowsAs(0.065325, 65)
         && ShowsAs(12.812472, 12812)
  {
  }

  /** WLK [9000, 1, 75, 180]: 5.850 km, 5.850 km/h, 349.252 kcal. */
  lemma WalkingScenario()
    ensures ReadPackage("WLK", [9000.0, 1.0, 75.0, 180.0]) == Success(SportsWalking(9000.0, 1.0, 75.0, 180.0))
    ensures ShowTrainingInfo(SportsWalking(9000.0, 1.0, 75.0, 180.0))
         == Some(InfoMessage("SportsWalking", 1.0, 5.85, 5.85, 349.251747525))
    ensures ShowsAs(1.0, 1000) && ShowsAs(5.85, 5850) && ShowsAs(349.251747525, 349252)
  {
  }

  /** An unknown code and a short running package are both refused, naming the code. */
  lemma RejectedScenarios()
    ensures ReadPackage("XYZ", [1.0, 2.0, 3.0]) == Failure(UnknownCode("XYZ"))
    ensures ReadPackage("RUN", [1206.0, 12.0]) == Failure(ArityMismatch("RUN"))
    ensures Message(ArityMismatch("RUN")) == "Неверное кол-во аргументов для тренировки: RUN"
  {
  }
}
