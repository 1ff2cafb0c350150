TestResult.DisplayName,TestResult.Outcome,TestResult.Duration,TestResult.ResourceCount,RandomSeed
Game.SurrenderStep (correctness),Passed,00:00:00.5854019,724711,3
Game.SurrenderStep (well-formedness),Passed,00:00:00.4214624,243475,3
