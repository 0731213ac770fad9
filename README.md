# Consumer portfolio, data diagnostics and Snowflake blueprint — a Dafny model

This project models the computational core of the multi-asset research agents:

- **Consumer framework** (`consumer_framework.py`).
  - The data agent loads the blueprint's holdings: each row's value is quantity × price, and its weight is that value over the total.
  - The analytics agent summarises the allocation: class weights, the five largest positions and the Herfindahl index.
  - It runs the configured stress scenarios, giving per-class shocks with a `"default"` fallback, and the P&L and P&L percentage of each.
  - It projects monthly compounding growth with a fixed contribution.
  - The action agent turns policy-target drift into Trim/Add actions and flags top positions above the single-position cap. It assembles the plan: rebalance actions, then concentration actions, then the configured notes.
- **Data diagnostics** (`data_agent.py`, `daily_cross_asset.py`). For each asset class it computes the expected and actual benchmark counts and the coverage. The daily pipeline raises an alert for each class whose coverage is below 0.8.
- **Snowflake framework** (`snowflake_framework.py`).
  - Table descriptions with their defaults.
  - Fully qualified names of the form `DATABASE.SCHEMA.name`, with database and schema upper-cased.
  - The seven-query library, seen through its names, purposes and the tables it references.
  - The dashboard ideas and the assembled blueprint record.
  - Its Markdown rendering, a list of lines joined with `"\n"`.

Code that updates accumulators in loops becomes a Dafny `method` with loop invariants. Each such method is proved equal to a specification function, applied element by element or defined recursively, and the properties are proved as lemmas about those functions. The loading, allocation and query-building code computes values, so it is modelled by functions.

Modules, one per file:
- `Wrappers`: `Option`.
- `ConsumerPortfolio`, `ConsumerAllocation`, `ConsumerScenarios`, `ConsumerActions`.
- `DataDiagnostics`.
- `SnowflakeSchema`, `SnowflakeBlueprint`.

Modelling choices:
- Amounts and weights are `real`.
- The source's ordered dicts (configured scenarios, policy targets, the schema's tables) are sequences of pairs.
- Lookup-only dicts are `map`s.
- Optional configuration keys are `Option`s, so each default the source applies appears in the model.

## Model

| member | source | states |
|---|---|---|
| `ConsumerPortfolio.LoadPortfolio` | agentic-multi-asset-research/src/agents/consumer_framework.py:22-33 | every row keeps its holding's columns, has value = quantity × price and weight = value / total; the reported total is the sum of the values; the profile defaults to an empty mapping; a zero total is excluded: no holdings raises KeyError (line 24) and a non-empty zero total yields NaN/inf weights (line 25) |
| `ConsumerPortfolio.LoadedWeightsSumToOne` | agentic-multi-asset-research/src/agents/consumer_framework.py:24-25 | the weights of a loaded portfolio sum to 1 |
| `ConsumerPortfolio.WeightsAreFractions` | agentic-multi-asset-research/src/agents/consumer_framework.py:24-25 | with non-negative values and a positive total every weight lies in [0, 1] |
| `ConsumerPortfolio.PricedTotal` | agentic-multi-asset-research/src/agents/consumer_framework.py:24-25 | pricing the frame keeps the sum of market values, and the weights sum to that sum over the divisor |
| `ConsumerAllocation.Classes` | agentic-multi-asset-research/src/agents/consumer_framework.py:41 | the groupby keys: duplicate-free, exactly the asset classes that occur |
| `ConsumerAllocation.ClassWeights` | agentic-multi-asset-research/src/agents/consumer_framework.py:41-42 | one weight per asset class present, each the class's summed value over the total value |
| `ConsumerAllocation.Herfindahl` | agentic-multi-asset-research/src/agents/consumer_framework.py:48 | the sum of squared row weights is never negative |
| `ConsumerAllocation.AllocationTotalIsTotalValue` | agentic-multi-asset-research/src/agents/consumer_framework.py:41-42 | the grouped values sum to the portfolio's total value, so `allocation.sum()` is the total |
| `ConsumerAllocation.ClassWeightsSumToOne` | agentic-multi-asset-research/src/agents/consumer_framework.py:41-42 | the class weights sum to 1 |
| `ConsumerAllocation.ClassWeightIsPositionWeightSum` | agentic-multi-asset-research/src/agents/consumer_framework.py:41-42 | in a loaded portfolio a class weight equals the sum of the row weights of that class |
| `ConsumerAllocation.SortByValue` | agentic-multi-asset-research/src/agents/consumer_framework.py:44 | sorting by value descending gives a non-increasing permutation of the rows |
| `ConsumerAllocation.TopPositions` | agentic-multi-asset-research/src/agents/consumer_framework.py:44-46 | `head(5)` of the sorted frame: min(n, 5) rows in non-increasing value order, a sub-multiset of the rows, and no row left out is worth more than the last row kept |
| `ConsumerAllocation.HerfindahlBounds` | agentic-multi-asset-research/src/agents/consumer_framework.py:48 | for a loaded portfolio with non-negative values the sum of squared weights lies between 1/n and 1 |
| `ConsumerAllocation.SquaresDominateMean` | agentic-multi-asset-research/src/agents/consumer_framework.py:48 | n × Σw² ≥ (Σw)², the Cauchy–Schwarz step behind the 1/n lower bound |
| `ConsumerAllocation.SummaryOfLoadedPortfolio` | agentic-multi-asset-research/src/agents/consumer_framework.py:40-56 | the summary's weights cover exactly the held classes and sum to 1, at most five top positions are kept, and the index lies in [1/n, 1] |
| `ConsumerAllocation.SummarizeAllocation` | agentic-multi-asset-research/src/agents/consumer_framework.py:40-56 | for a non-zero total: the weights have exactly the held classes as keys, each its class value over the total; the top positions are min(n, 5) rows of the frame in non-increasing value order; the index is non-negative |
| `ConsumerScenarios.RunStressTests` | agentic-multi-asset-research/src/agents/consumer_framework.py:58-82 | one outcome per configured scenario, in configuration order, each the scenario's specified outcome |
| `ConsumerScenarios.StressTest` | agentic-multi-asset-research/src/agents/consumer_framework.py:60-79 | one scenario's name, description (default ""), P&L = shocked value − current value and guarded P&L percentage |
| `ConsumerScenarios.OutcomeOf` | agentic-multi-asset-research/src/agents/consumer_framework.py:61-78 | a scenario's outcome carries its name and its description (default ""), its P&L equals the shock-weighted exposure Σ value × shock, and its percentage is that P&L over the current value, 0 when that value is 0 |
| `ConsumerScenarios.ShockValues` | agentic-multi-asset-research/src/agents/consumer_framework.py:62-65 | the inner loop yields value × (1 + shock) per row in frame order, the shock being the class's own, else `"default"`, else 0 |
| `ConsumerScenarios.PnlIsExposure` | agentic-multi-asset-research/src/agents/consumer_framework.py:64-69 | a scenario's P&L equals Σ value × shock over the rows |
| `ConsumerScenarios.ZeroShocksAreNeutral` | agentic-multi-asset-research/src/agents/consumer_framework.py:61-70 | all-zero or absent shocks give P&L 0 and P&L percentage 0 |
| `ConsumerScenarios.UniformShock` | agentic-multi-asset-research/src/agents/consumer_framework.py:64-69 | when every row gets the same shock s, the P&L is s × total value |
| `ConsumerScenarios.PnlPctGuard` | agentic-multi-asset-research/src/agents/consumer_framework.py:70 | the percentage times the current value is the P&L when that value is non-zero, and the percentage is 0 when it is zero |
| `ConsumerScenarios.ProjectGrowth` | agentic-multi-asset-research/src/agents/consumer_framework.py:84-100 | the projection is `Projection` of the current total, the blended monthly return of the original weights and the contribution (default 0), over max(months, 0) months; the horizon defaults to 12 |
| `ConsumerScenarios.Projection` | agentic-multi-asset-research/src/agents/consumer_framework.py:90-97 | the projection has one point per month |
| `ConsumerScenarios.ProjectionPoints` | agentic-multi-asset-research/src/agents/consumer_framework.py:90-97 | point k is month k + 1 with the value compounded k + 1 times (prev × (1 + r) + contribution) |
| `ConsumerScenarios.BlendedMonthlyReturn` | agentic-multi-asset-research/src/agents/consumer_framework.py:92-94 | the inner loop computes Σ weight × (expected return or 0) / 12 |
| `ConsumerScenarios.ProjectionNonDecreasing` | agentic-multi-asset-research/src/agents/consumer_framework.py:96 | with non-negative start, return and contribution the projected value never falls and stays non-negative |
| `ConsumerScenarios.NoReturnsGrowByContributions` | agentic-multi-asset-research/src/agents/consumer_framework.py:85-96 | classes without a configured return add nothing, so such a portfolio reaches start + n × contribution after n months |
| `ConsumerActions.GenerateRebalanceActions` | agentic-multi-asset-research/src/agents/consumer_framework.py:107-122 | the actions are those of the targets whose drift reaches the threshold (default 0), in target order |
| `ConsumerActions.RebalanceActionsSound` | agentic-multi-asset-research/src/agents/consumer_framework.py:112-118 | every rebalance action is the action `RebalanceFor` builds from some target whose \|drift\| ≥ threshold (same class, target, direction and amount); it is Trim exactly when drift > 0; its amount is \|drift\| × total value |
| `ConsumerActions.RebalanceActionsComplete` | agentic-multi-asset-research/src/agents/consumer_framework.py:112-118 | every target whose \|drift\| reaches the threshold gets its action |
| `ConsumerActions.RebalanceActionCount` | agentic-multi-asset-research/src/agents/consumer_framework.py:112-118 | there are exactly as many actions as emitting targets |
| `ConsumerActions.DefaultThresholdEmitsEveryTarget` | agentic-multi-asset-research/src/agents/consumer_framework.py:109-114 | with the default threshold 0 every policy target emits an action |
| `ConsumerActions.WithinThresholdNoRebalance` | agentic-multi-asset-research/src/agents/consumer_framework.py:112-114 | no action when every drift stays below the threshold |
| `ConsumerActions.OnTargetIsAdd` | agentic-multi-asset-research/src/agents/consumer_framework.py:112-116 | a class exactly on target still emits (inclusive comparison) and is an Add of 0 when the threshold is at most 0 |
| `ConsumerActions.GenerateConcentrationActions` | agentic-multi-asset-research/src/agents/consumer_framework.py:124-132 | one Reduce action per top position with weight strictly above the cap (default 1), in order |
| `ConsumerActions.ConcentrationActionsSound` | agentic-multi-asset-research/src/agents/consumer_framework.py:126-128 | every concentration action names a top position whose weight is strictly above the cap |
| `ConsumerActions.ConcentrationActionsComplete` | agentic-multi-asset-research/src/agents/consumer_framework.py:126-128 | every top position strictly above the cap gets its action |
| `ConsumerActions.ConcentrationActionCount` | agentic-multi-asset-research/src/agents/consumer_framework.py:123-131 | the number of concentration actions equals the number of top positions whose weight is strictly above the cap, duplicates counted |
| `ConsumerActions.WithinCapNoConcentration` | agentic-multi-asset-research/src/agents/consumer_framework.py:126-128 | positions at or below the cap, including one equal to it, yield no action |
| `ConsumerActions.BuildActionPlan` | agentic-multi-asset-research/src/agents/consumer_framework.py:134-139 | the plan is the rebalance actions, then the concentration actions, then the notes verbatim (default none) |
| `ConsumerActions.PlanOrder` | agentic-multi-asset-research/src/agents/consumer_framework.py:134-139 | the plan is ordered by kind (rebalance, concentration, note) and ends with exactly the configured notes |
| `DataDiagnostics.ComputeDataDiagnostics` | agentic-multi-asset-research/src/agents/data_agent.py:50-62 | one diagnostic per standardized asset class, each with the universe size, the distinct ids returned (0 for an empty frame) and the guarded coverage |
| `DataDiagnostics.CoverageDefinition` | agentic-multi-asset-research/src/agents/data_agent.py:54-56 | coverage is non-negative; it is actual / expected for a non-empty universe and exactly 1 for an empty one |
| `DataDiagnostics.DiagnosticOf` | agentic-multi-asset-research/src/agents/data_agent.py:54-56 | expected is the universe size, actual is the number of distinct ids and never exceeds the frame's rows, and coverage is non-negative |
| `DataDiagnostics.CoverageAtMostOne` | agentic-multi-asset-research/src/agents/data_agent.py:55-56 | coverage never exceeds 1 when the frame holds only ids of the universe, even when the configuration repeats an id |
| `DataDiagnostics.DistinctCount` | agentic-multi-asset-research/src/agents/data_agent.py:55 | a list never has more distinct ids than entries (`nunique()` ≤ `len`) |
| `DataDiagnostics.CoverageAlerts` | agentic-multi-asset-research/src/pipelines/daily_cross_asset.py:28-30 | the flagged classes are exactly those whose coverage is strictly below 0.8 |
| `DataDiagnostics.AlertIffShortfall` | agentic-multi-asset-research/src/pipelines/daily_cross_asset.py:28-30 | a class is flagged if and only if its universe is non-empty and 5 × actual < 4 × expected, so coverage exactly 0.8 is not flagged |
| `SnowflakeSchema.Upper` | agentic-multi-asset-research/src/agents/snowflake_framework.py:52-53 | upper-casing keeps the length and maps each character through the ASCII upper-case table |
| `SnowflakeSchema.UpperIsUpper` | agentic-multi-asset-research/src/agents/snowflake_framework.py:52-53 | no lower-case letter remains, other characters are kept, and upper-casing is idempotent |
| `SnowflakeSchema.Lookup` | agentic-multi-asset-research/src/agents/snowflake_framework.py:48-49 | a slug has an entry exactly when some table carries it |
| `SnowflakeSchema.LookupFinds` | agentic-multi-asset-research/src/agents/snowflake_framework.py:48-49 | with distinct slugs, looking up the i-th slug gives the i-th table's metadata |
| `SnowflakeSchema.QualifiedNameParts` | agentic-multi-asset-research/src/agents/snowflake_framework.py:47-54 | when database and schema contain no dot, the qualified name splits back into upper-cased database, upper-cased schema and the table name |
| `SnowflakeSchema.FullyQualifiedName` | agentic-multi-asset-research/src/agents/snowflake_framework.py:47-54 | the name is the upper-cased `DATABASE.SCHEMA.` prefix followed by the table name, its length the two settings' lengths plus two dots plus the name's |
| `SnowflakeSchema.TableName` | agentic-multi-asset-research/src/agents/snowflake_framework.py:48-50 | an unknown slug and a table without `name` both give the slug; any other result is the configured name of a table with that slug |
| `SnowflakeSchema.SplitAtDotOfJoin` | agentic-multi-asset-research/src/agents/snowflake_framework.py:54 | splitting `a.b` at its first dot gives back a and b when a has no dot |
| `SnowflakeSchema.NameFallbacks` | agentic-multi-asset-research/src/agents/snowflake_framework.py:49-53 | an unknown slug, or a listed table without `name`, is used as the name, and missing database and schema give a name that starts with ".." |
| `SnowflakeSchema.DescribeTables` | agentic-multi-asset-research/src/agents/snowflake_framework.py:31-45 | one record per table in document order, each with its defaults: the slug as name, "" for text, [] for lists |
| `SnowflakeSchema.DescribedNamesQualify` | agentic-multi-asset-research/src/agents/snowflake_framework.py:37-54 | with distinct slugs, the described name of a table is the one its qualified name ends with |
| `SnowflakeSchema.TableRefs` | agentic-multi-asset-research/src/agents/snowflake_framework.py:63-64 | each interpolated table reference is the qualified name of its slug |
| `SnowflakeSchema.BuildQueries` | agentic-multi-asset-research/src/agents/snowflake_framework.py:66-220 | exactly seven queries with the fixed names and purposes, each SQL text interpolating the qualified names of its tables in order |
| `SnowflakeSchema.QueryReferencesQualified` | agentic-multi-asset-research/src/agents/snowflake_framework.py:63-64 | every table reference starts with `DATABASE.SCHEMA.` and ends with the table's name |
| `SnowflakeBlueprint.Build` | agentic-multi-asset-research/src/agents/snowflake_framework.py:239-251 | the blueprint carries the date, the connection as configured, the described tables, the seven queries and the five dashboard ideas |
| `SnowflakeBlueprint.LeadingSpaces` | agentic-multi-asset-research/src/agents/snowflake_framework.py:292 | the length of the maximal white-space prefix, using Python's `isspace` set |
| `SnowflakeBlueprint.StripTrailing` | agentic-multi-asset-research/src/agents/snowflake_framework.py:292 | the longest prefix not ending in white space; everything cut off is white space |
| `SnowflakeBlueprint.Strip` | agentic-multi-asset-research/src/agents/snowflake_framework.py:292 | `strip()` gives the slice after the leading white space that neither starts nor ends with white space, and only white space follows it |
| `SnowflakeBlueprint.StripIdempotent` | agentic-multi-asset-research/src/agents/snowflake_framework.py:292 | a string without white space at either end strips to itself, and stripping twice changes nothing |
| `SnowflakeBlueprint.SplitLines` | agentic-multi-asset-research/src/agents/snowflake_framework.py:300 | splitting at newlines, the inverse used to read the joined text back, yields at least one piece and none holds a newline |
| `SnowflakeBlueprint.SplitJoin` | agentic-multi-asset-research/src/agents/snowflake_framework.py:300 | splitting the joined text gives the lines back when none holds a newline |
| `SnowflakeBlueprint.JoinLines` | agentic-multi-asset-research/src/agents/snowflake_framework.py:300 | the joined text starts with the first line, followed by a newline when more lines follow |
| `SnowflakeBlueprint.JoinSplit` | agentic-multi-asset-research/src/agents/snowflake_framework.py:300 | joining the pieces of a split gives the text back |
| `SnowflakeBlueprint.Bullets` | agentic-multi-asset-research/src/agents/snowflake_framework.py:278-283 | one bullet line per item |
| `SnowflakeBlueprint.BulletAt` | agentic-multi-asset-research/src/agents/snowflake_framework.py:278-283 | the i-th bullet line is the marker followed by the i-th item |
| `SnowflakeBlueprint.ToMarkdown` | agentic-multi-asset-research/src/agents/snowflake_framework.py:253-300 | the text is the document's lines joined with newlines |
| `SnowflakeBlueprint.AppendConnection` | agentic-multi-asset-research/src/agents/snowflake_framework.py:256-267 | appends exactly the connection section |
| `SnowflakeBlueprint.AppendTables` | agentic-multi-asset-research/src/agents/snowflake_framework.py:270-284 | appends the blocks of all tables in order |
| `SnowflakeBlueprint.AppendTable` | agentic-multi-asset-research/src/agents/snowflake_framework.py:271-284 | appends one table's block |
| `SnowflakeBlueprint.AppendTableFields` | agentic-multi-asset-research/src/agents/snowflake_framework.py:272-283 | appends the lines of the non-empty fields in order |
| `SnowflakeBlueprint.AppendList` | agentic-multi-asset-research/src/agents/snowflake_framework.py:276-279 | appends a labelled list only when it is non-empty |
| `SnowflakeBlueprint.AppendIf` | agentic-multi-asset-research/src/agents/snowflake_framework.py:259-260 | appends the line exactly when the field is present |
| `SnowflakeBlueprint.AppendQueries` | agentic-multi-asset-research/src/agents/snowflake_framework.py:287-294 | appends a seven-line block per query in order |
| `SnowflakeBlueprint.AppendQuery` | agentic-multi-asset-research/src/agents/snowflake_framework.py:288-294 | appends one query's block: heading, purpose, blank line, the fenced and stripped SQL, blank line |
| `SnowflakeBlueprint.AppendBullets` | agentic-multi-asset-research/src/agents/snowflake_framework.py:296-298 | appends one `- idea` line per dashboard idea |
| `SnowflakeBlueprint.ConnectionSection` | agentic-multi-asset-research/src/agents/snowflake_framework.py:256-267 | no section for an empty profile; otherwise a heading, one line per truthy warehouse and role, the database.schema line exactly when both are truthy, and a closing blank line |
| `SnowflakeBlueprint.TableBlock` | agentic-multi-asset-research/src/agents/snowflake_framework.py:271-284 | a table block is its heading, one line per non-empty field, a labelled line plus one bullet per key and per column when there are any, and a blank line |
| `SnowflakeBlueprint.Sections` | agentic-multi-asset-research/src/agents/snowflake_framework.py:254-298 | where every section and heading sits in the document |
| `SnowflakeBlueprint.MarkdownStartsWithTitle` | agentic-multi-asset-research/src/agents/snowflake_framework.py:254 | the text starts with the dated title line and a blank line |
| `SnowflakeBlueprint.TableHeadingAt` | agentic-multi-asset-research/src/agents/snowflake_framework.py:270-271 | the i-th table's heading follows the blocks of the tables before it |
| `SnowflakeBlueprint.BuiltTableHeading` | agentic-multi-asset-research/src/agents/snowflake_framework.py:269-271 | in a built blueprint the i-th table heading is the table's name, which is the name its queries qualify with `DATABASE.SCHEMA.` |
| `SnowflakeBlueprint.QueryLineAt` | agentic-multi-asset-research/src/agents/snowflake_framework.py:287-294 | the query section has seven lines per query, and line j of block k is line j of query k's block |
| `SnowflakeBlueprint.BuiltQuerySection` | agentic-multi-asset-research/src/agents/snowflake_framework.py:286-296 | in a built blueprint the k-th query block carries that query's fixed heading and purpose and its stripped SQL over the qualified names; the dashboard heading follows the seventh block |

## Left out

- Reading YAML files, the `logger` calls, and creating the output directory are I/O. So is `SnowflakeAnalyticsFramework.build`, which writes the Markdown to a file; it is not modelled. The model starts from the parsed blueprint and schema documents.
- ConsumerPortfolio.LoadPortfolio: a zero total value is excluded by a precondition. With no holdings the frame has no columns and `holdings["quantity"]` raises KeyError (consumer_framework.py line 24); a non-empty list whose values sum to zero reaches the division of line 25 and yields NaN or infinite weights, and IEEE floating point is not modelled. `ConsumerAllocation.SummarizeAllocation` likewise requires a non-zero total value, because line 42 divides by the allocation's sum.
- Amounts are exact reals, not IEEE doubles. Rounding, NaN and infinity are not modelled.
- Rebalance and concentration actions are kept as structured records: direction, class, amount, target; symbol, weight, cap. Their rendering as sentences (`${dollar:,.0f}`, `{target:.0%}`) is not modelled.
- `ConsumerAllocation.TopPositions` keeps the whole position row. The source keeps only the symbol, asset class, value and weight columns.
- Ties among equal values: the model keeps frame order. pandas' default sort does not promise an order for ties, and no contract depends on this order.
- The groupby orders class weights by class name; the model's weights are a `map`, which has no order.
- The SQL text of each query is opaque. `BuildQueries` takes it as a function `sqlBody(k, refs)` of the query's index and its interpolated table references. The model fixes only which tables each template interpolates, and in what order.
- `SnowflakeSchema.Upper` handles ASCII letters only. Python's `str.upper` also maps non-ASCII letters, and can lengthen a string (e.g. ß becomes SS).
- Connection values are modelled as strings, so truthiness is "present and non-empty". Non-string YAML values (numbers, booleans, null) are not modelled.
- Within the schema's table metadata, a key present with a null value is not distinguished from an absent key.
- Alert iteration order: `CoverageAlerts` returns the set of flagged classes. Sending an issue to GitHub for each one is a network call and is not modelled.
- `nunique` ignores missing ids. Benchmark ids are modelled as non-null strings.
- `ConsumerScenarios.ProjectGrowth` recomputes the same blended monthly return every month, as the source does. The model does not state a closed form of the recurrence.
