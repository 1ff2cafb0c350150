TestResult.DisplayName,TestResult.Outcome,TestResult.Duration,TestResult.ResourceCount,RandomSeed
Game.SurrenderStep (correctness),Passed,00:00:00.6122729,653312,2
Game.SurrenderStep (well-formedness),Passed,00:00:00.4289350,243529,2
