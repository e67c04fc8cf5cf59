# Financial advisor dashboard: calculation core in Dafny

This project models the calculation helpers of the financial-advisor dashboard component
(`src/FinancialAdvisorAI.js`) and proves properties about them. The component maps a client's
risk score (1 to 10) to four things:

- a risk category (`getRiskCategory`);
- five asset-class percentages (`generateAllocation`);
- one of three fixed ticker tables (`generateRecommendations`);
- the labels of the risk-analysis panel: volatility tolerance, income needs, loss capacity and the amber highlight.

Its onboarding form also keeps a list of investment goals that the goal buttons toggle (`handleGoalSelection`).

Modules, one per component:

| file | module | models |
|---|---|---|
| js_math.dfy | `JsMath` | `Math.round`, `Math.min` and `Math.max` on exact reals |
| risk_classifier.dfy | `RiskClassifier` | `getRiskCategory` |
| allocation.dfy | `AllocationEngine` | `generateAllocation`, plus the growth and defensive subtotals |
| recommendations.dfy | `RecommendationCatalog` | `generateRecommendations` and its three tables |
| risk_analysis.dfy | `RiskAnalysis` | the panel's inline label chains and the highlight |
| goals.dfy | `InvestmentGoals` | the goal toggle and the offered goals |
| sample_clients.dfy | `SampleClients` | the seeded clients and the id a new client receives |

Modelling assumptions:

- The score is an exact `real`. `Math.round(x)` is `Floor(x + 1/2)`: the nearest integer, with a tie going toward +infinity.
- IEEE-754 double arithmetic is not modelled. A product such as `score * 6` that lands within one ulp of a `.5` could round differently in JavaScript than in the model.
- Every function is total over all reals, as in the component. The score range [1, 10] (`AllocationEngine.InDomain`) appears only as a hypothesis of the lemmas that need it.

Proved behaviour worth knowing:

- The five allocation percentages are computed independently. On [1, 10] their sum is always above 100: score 1 gives 102 and score 7.2 gives 123.
- The risk category cuts at 2/4/6/8 with `<=`. The ticker tables and the loss-capacity label cut at 4/7 with `>`. So a score in (7, 8], such as the seeded 7.2, is "Moderately Aggressive" but gets the aggressive table.
- Income needs cut at 4 with `<`. At exactly 4, income needs and loss capacity both read "Low".
- Toggling a goal twice restores the list exactly when the goal was not selected, or was selected and last. Otherwise the same goals come back, but that goal moves to the end of the list.

Two facts about the code that are easy to assume otherwise:

- `sampleClients` is never appended to. So every onboarded client gets id `sampleClients.length + 1`, which is 6 (line 95; `SampleClients.NewClientId`).
- `generateAllocation` has no branch on the score. Its five formulas apply to every score.

## Model

| member | source | states |
|---|---|---|
| JsMath.Round | src/FinancialAdvisorAI.js:133-137 | `Math.round`: the result is within one half of the input, with a tie rounding up |
| JsMath.Min | src/FinancialAdvisorAI.js:133-136 | `Math.min` is one of its arguments and no larger than either |
| JsMath.Max | src/FinancialAdvisorAI.js:135-137 | `Math.max` is one of its arguments and no smaller than either |
| JsMath.RoundMonotone | src/FinancialAdvisorAI.js:133-137 | rounding preserves order, so the direction of each clamped formula survives rounding |
| JsMath.RoundOfInteger | src/FinancialAdvisorAI.js:133-137 | an integer rounds to itself |
| RiskClassifier.Classify | src/FinancialAdvisorAI.js:123-129 | the category returned is the one whose band (Cut(rank-1), Cut(rank)] contains the score, with cuts 2, 4, 6, 8 |
| RiskClassifier.BandsPartition | src/FinancialAdvisorAI.js:123-129 | a score lies in a category's band if and only if that category is the classifier's answer, so each score gets exactly one category |
| RiskClassifier.ClassifyMonotone | src/FinancialAdvisorAI.js:123-129 | a higher score never yields a less risk-tolerant category |
| RiskClassifier.LabelInjective | src/FinancialAdvisorAI.js:124-128 | the five label strings are pairwise distinct |
| RiskClassifier.ClassifyBoundaries | src/FinancialAdvisorAI.js:123-129 | 2 is Conservative, 2.01 and 4 Moderately Conservative, 6 Moderate, 8 Moderately Aggressive, 8.01 Aggressive |
| AllocationEngine.Allocate | src/FinancialAdvisorAI.js:131-139 | for every score: US stocks at most 65, international stocks at most 40, bonds at least 5, alternatives between 0 and 15, cash at least 2 |
| AllocationEngine.AllocationRanges | src/FinancialAdvisorAI.js:133-137 | on scores 1 to 10 the components stay in [16,65], [8,35], [5,64], [0,14] and [5,14], so all are non-negative |
| AllocationEngine.AllocationMonotone | src/FinancialAdvisorAI.js:133-137 | US stocks, international stocks and alternatives are non-decreasing in the score; bonds and cash are non-increasing |
| AllocationEngine.GrowthDefensiveMonotone | src/FinancialAdvisorAI.js:571-578 | the displayed growth subtotal never shrinks and the defensive subtotal never grows as the score rises |
| AllocationEngine.Allocation.Growth | src/FinancialAdvisorAI.js:573 | the "Growth Assets" subtotal and the defensive subtotal split the five-share total between them |
| AllocationEngine.Allocation.Defensive | src/FinancialAdvisorAI.js:577 | the "Defensive Assets" subtotal is the total less US stocks, international stocks and alternatives |
| AllocationEngine.GrowthPlusDefensive | src/FinancialAdvisorAI.js:571-578 | on scores 1 to 10 the two displayed subtotals add up to more than 100 percent |
| AllocationEngine.TotalExceeds100 | src/FinancialAdvisorAI.js:131-139 | on scores 1 to 10 the unnormalised shares always sum to more than 100 |
| AllocationEngine.AllocationExamples | src/FinancialAdvisorAI.js:131-139 | score 7.2 gives 53/27/27/8/8 (total 123); score 1 gives 16/8/64/0/14 (total 102) |
| RecommendationCatalog.BandOf | src/FinancialAdvisorAI.js:142-160 | aggressive exactly above 7, moderate exactly on (4, 7], conservative exactly at 4 and below |
| RecommendationCatalog.Recommend | src/FinancialAdvisorAI.js:141-169 | the list returned is the table of the score's band |
| RecommendationCatalog.AggressiveTableProperties | src/FinancialAdvisorAI.js:143-151 | the aggressive table has positive shares, distinct tickers, and sums to 100 |
| RecommendationCatalog.ModerateTableProperties | src/FinancialAdvisorAI.js:153-159 | the moderate table has positive shares, distinct tickers, and sums to 100 |
| RecommendationCatalog.ConservativeTableProperties | src/FinancialAdvisorAI.js:161-167 | the conservative table has positive shares, distinct tickers, and sums to 100 |
| RecommendationCatalog.TableProperties | src/FinancialAdvisorAI.js:143-167 | each table is well formed, sums to 100, and has 7 entries (aggressive) or 5 (the others) |
| RecommendationCatalog.RecommendationsSumTo100 | src/FinancialAdvisorAI.js:141-169 | for every score the recommended shares sum to exactly 100, are positive, and name distinct tickers; 7 entries above 7, else 5 |
| RecommendationCatalog.BandBoundaries | src/FinancialAdvisorAI.js:142-160 | 4 selects the conservative table, 4.0001 and 7 the moderate one, 7.0001 the aggressive one |
| RiskAnalysis.VolatilityTolerance | src/FinancialAdvisorAI.js:641-644 | the volatility label is the category's counterpart: Very Low for Conservative up to Very High for Aggressive, for every score |
| RiskAnalysis.VolatilityOfBijective | src/FinancialAdvisorAI.js:641-644 | the category-to-volatility correspondence has an inverse, so it is one to one and onto |
| RiskAnalysis.LossCapacity | src/FinancialAdvisorAI.js:656-657 | loss capacity is High, Moderate or Low exactly as the score selects the aggressive, moderate or conservative table |
| RiskAnalysis.IncomeNeeds | src/FinancialAdvisorAI.js:650 | income needs read only High or Low |
| RiskAnalysis.Highlighted | src/FinancialAdvisorAI.js:640 | the amber test `riskScore > 7` holds exactly when the score selects the aggressive table |
| RiskAnalysis.HighlightMatchesAggressiveTable | src/FinancialAdvisorAI.js:640 | a score is highlighted amber exactly when it gets the aggressive table, and exactly when loss capacity is High |
| RiskAnalysis.IncomeNeedsAndLossCapacity | src/FinancialAdvisorAI.js:650-657 | income needs are High exactly for conservative-band scores other than 4 (the `< 4` cut); high income needs imply low loss capacity; at exactly 4 both read Low |
| RiskAnalysis.CategoryAndBandDisagree | src/FinancialAdvisorAI.js:123-160 | every score in (7, 8] is Moderately Aggressive yet selects the aggressive table |
| InvestmentGoals.RemoveAll | src/FinancialAdvisorAI.js:82 | filtering out a goal removes every occurrence and keeps every other goal with its multiplicity |
| InvestmentGoals.RemoveAllAppend | src/FinancialAdvisorAI.js:82 | filtering distributes over concatenation, so the kept goals stay in order |
| InvestmentGoals.RemoveAllAbsent | src/FinancialAdvisorAI.js:82 | filtering out an absent goal leaves the list unchanged |
| InvestmentGoals.RemoveAllNoDuplicates | src/FinancialAdvisorAI.js:82 | filtering keeps a duplicate-free list duplicate-free |
| InvestmentGoals.Toggle | src/FinancialAdvisorAI.js:78-87 | after a toggle the goal is selected exactly when it was not before; no other goal changes membership |
| InvestmentGoals.ToggleNoDuplicates | src/FinancialAdvisorAI.js:78-87 | toggling preserves duplicate-freedom |
| InvestmentGoals.ToggleTwiceFromAbsent | src/FinancialAdvisorAI.js:78-87 | toggling an unselected goal twice restores the list exactly |
| InvestmentGoals.ToggleTwiceFromPresent | src/FinancialAdvisorAI.js:78-87 | toggling a selected goal twice restores the same multiset with the goal moved last; the list is unchanged iff the goal was last |
| InvestmentGoals.ToggleTwiceReorders | src/FinancialAdvisorAI.js:78-87 | toggling "Retirement" twice in ["Retirement", "College Fund"] gives ["College Fund", "Retirement"] |
| InvestmentGoals.ToggleKeepsSelectionValid | src/FinancialAdvisorAI.js:275-283 | starting from the empty list, clicking offered goals keeps a duplicate-free selection of offered goals, at most six long |
| SampleClients.NewClientId | src/FinancialAdvisorAI.js:95 | a new client's id exceeds every seeded id |
| SampleClients.ClientsWellFormed | src/FinancialAdvisorAI.js:28-34 | seeded ids are 1 to 5 in order, scores lie in [1, 10], ages and progress are in range; a new client's id is 6 |
| SampleClients.ClientAdvice | src/FinancialAdvisorAI.js:28-34 | category and table band of each seeded client; the 7.2 client is Moderately Aggressive but gets the aggressive table |

## Left out

- JSX rendering, styling, the recharts charts, `NavItem` and the sidebar and tab navigation: these are presentation with no invariants.
- React `useState` state and setters, and the 1500 ms `setTimeout` that defers assembling the recommendation in `handleClientSelect` and `handleClientFormSubmit`. These are framework state and scheduling. The assembled record only pairs the score with the outputs of the three modelled helpers.
- `parseInt`/`parseFloat` of the form strings in `handleClientFormSubmit`, including the `|| 100000` default: this is JavaScript library parsing.
- A client store: the component has none. `sampleClients` is a constant list and onboarded clients are never added to it.
- The "Expected Returns" projections: display-only floating-point arithmetic with no stated contract.
- IEEE-754 doubles: scores and formulas are exact reals. NaN, infinities and `-0` are not modelled, and neither are the non-number inputs `Math.min`/`Math.max` accept.
- RiskAnalysis.IncomeNeeds: its own contract only names the two possible labels. Its `<` cut at 4 is stated as an if-and-only-if in `IncomeNeedsAndLossCapacity`.
