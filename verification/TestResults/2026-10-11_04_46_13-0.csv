TestResult.DisplayName,TestResult.Outcome,TestResult.Duration,TestResult.ResourceCount,RandomSeed
Kpis.InsertByLeadsStable (correctness),Passed,00:00:00.0989691,293685,0
