TestResult.DisplayName,TestResult.Outcome,TestResult.Duration,TestResult.ResourceCount,RandomSeed
Kpis.InsertByLeadsStable (correctness),Passed,00:00:00.0921532,329030,1
