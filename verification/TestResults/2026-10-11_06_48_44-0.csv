TestResult.DisplayName,TestResult.Outcome,TestResult.Duration,TestResult.ResourceCount,RandomSeed
Game.SurrenderStep (correctness),Failed,00:00:10.7601307,2250757,4
Game.SurrenderStep (well-formedness),Passed,00:00:00.4050492,243478,4
