TestResult.DisplayName,TestResult.Outcome,TestResult.Duration,TestResult.ResourceCount,RandomSeed
Kpis.InsertByLeadsStable (correctness),Passed,00:00:00.0855501,315400,2
