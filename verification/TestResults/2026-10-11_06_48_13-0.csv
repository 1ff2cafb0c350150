TestResult.DisplayName,TestResult.Outcome,TestResult.Duration,TestResult.ResourceCount,RandomSeed
Game.SurrenderStep (correctness),Passed,00:00:00.5724764,584587,1
Game.SurrenderStep (well-formedness),Passed,00:00:00.3842819,243508,1
