TestResult.DisplayName,TestResult.Outcome,TestResult.Duration,TestResult.ResourceCount,RandomSeed
Game.SurrenderStep (correctness),Passed,00:00:00.6401231,700110,0
Game.SurrenderStep (well-formedness),Passed,00:00:00.4456564,243497,0
