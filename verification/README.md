# Verified model of the Customer Intelligence copilot's deterministic core

The copilot answers business questions with the help of language models. The guarantees it gives do not
come from those models: they come from the code around the model calls. This project models that code in
Dafny and proves what it promises. Every language-model answer, every entity-resolver answer and every SQL
outcome is an arbitrary input of the model, so a theorem here holds whatever they say.

What is modelled, and where:

- **Persona views** (`Relations`, `PersonaViews`, `Rollup`, `ServingSchema`, `StoreMonthly`). The compiler that turns each
  fact table into an HOD view and an EXEC view, over a small relational semantics with rows, NULL, grouping,
  filtered sums and RANK windows. EXEC is HOD without the money and window columns, row for row, and does not
  depend on the money columns of the base table; rolling up preserves totals; a filter moves below the
  rank exactly when it is a function of the columns the rank partitions by; and what v_sales_store_monthly
  shows is read off its rows: which facts share one, what its totals are, and how it ranks.
- **The glossary catalogue** (`Catalogue`, `CatalogueAgreement`). The second, independent derivation of which
  columns each view has for each role, proved equal to what the compiler projects.
- **The category tree** (`Ordering`, `CategoryTree`). The builder's node objects, mutated in place, proved
  against a functional description of the forest: keys and their order, parents, leaves and the denormalised
  ancestor index.
- **The SQL analyses** (`SqlAst`, `IdentityRule`, `IdentityFlow`, `IdentityEscapes`, `QueryShape`, `Repeats`,
  `CustomerGrain`, `GrainEscape`, `TraitsJoin`, `MoneyUnits`, `MoneyRatios`, `MoneyMeaning`). One syntax tree
  for three analyses: which queries may return a customer identity, which COUNTs are safe on customer-grain
  views, and which result columns are money. For the first, `IdentityFlow` follows values through the whole query to the rows of its
  result. For the second, a tree is read as a query (`QueryShape`) and evaluated over tables whose rows may
  repeat (`Repeats`).
- **The metric registry** (`MetricRegistry`, `MetricMeaning`): which metric a phrase means for a caller, said
  of the registry's rows; that is independent of the order they were loaded in, and which stand-in replaces a withheld metric is so exactly when one metric claims the first shared name.
- **The streaming protocol** (`StreamQueue`), a producer and a consumer over one bounded queue.
- **Clarification** (`TextUtils`, `Clarification`). Merging a reply into a question, stripping it out again,
  and the window of history a clarification occupies.
- **The role scope** (`Session`) and **the turn graph** (`TurnGraph`, `Turns`, `TurnRuns`,
  `TurnRouting`, `TurnNodes`, `LongestRun`). The graph as it is built, every node as a function of the turn, the
  request as a loop over a database session, and theorems about every run: that it ends, what it may send, what
  it may say, and why its response is of the kind it is.
- **Months, partitions and relative periods** (`Calendar`, `Partitions`, `RelativePeriods`).

Where the code and its own documentation part ways, the model follows the code and the theorem says exactly
when the documented behaviour holds:

- The stream's sentinel is said to unblock the consumer on every exit path. It is dropped when the queue is
  full at that moment, and then the client receives keepalives only (`DoneReachableIffSlot`,
  `FullQueueLosesDone`).
- The identity rule is said to make no accepted query return an identity. It looks only at columns directly in a
  SELECT it calls outermost, under names an alias gave to an identity itself. So an identity is shown by a UNION
  branch below another UNION or in parentheses, under a name given by a UNION position, a column list, the
  database or a second alias, or by a scalar subquery of the projection (`IdentityEscapes`). For every way of
  resolving names, an accepted query shows an identity exactly when one surfaces by a column these guards pass
  over (`AcceptedShowsIff`).
- De-duplication is said to make a count independent of row multiplicity. It is, for every meaning of the
  query's expressions, exactly when no multiplicity-sensitive aggregate in the FROM or WHERE, or in a CTE they
  name, is fed rows that may repeat (`AcceptedCountIgnoresRepeatsIff`, `DistinctTotalsEscape`,
  `WithTotalsEscape`). "Only then" is over all meanings: a count that reads none of the cells such an aggregate
  fills, like one of `customer_key` beside a sum, does not change under SQL's own meaning.
- The join of the OpCo and traits views is said to be one row each side. It is on the OpCo side; a customer in
  two OpCos has the traits row twice (`TwoOpcosRepeatTraits`).
- Registry order is said not to matter. It decides which stand-in is reported when several metrics claim the
  first shared name (`TwinIgnoresOrderIff`, `TwinDependsOnOrder`).
- The money analysis is said to repeat to a fixpoint; it stops after eight passes. At most eight names beyond
  the declared columns are always followed, nine are not (`SufficesIff`, `NineRenamesEscape`).
- A ratio of money to money is said not to be money. It is called money exactly when an operand of the division
  becomes money only after it was visited (`WronglyMoneyIff`, `ShareIsWronglyMoney`).
- A clarification reply of several lines is stripped out of the merged query exactly when no line after its
  first is the user's own (`MultiLineReplyIff`, `TwoLineReplyStays`).
- A statement that fails without a message passes for an empty success (`FailureSeenIff`, `SilentFailures`).
- The scope's role assertion passes for a known level exactly when the configured role name is a bare
  identifier or the two fallbacks coincide (`ScopeAssertIff`).
- "Last N months" starts N months back on the same day exactly when that month is long enough
  (`RollingStartSpills`).

`dafny verify dfyconfig.toml` checks the whole project.

## Model

| member | source | states |
|---|---|---|
| PersonaViews.ProjectionViewBody | app/db/v3_ddl.py:466-493 | The loop that appends columns and member splits yields the role's projection, refuses a table without columns, and reports as dropped exactly the money columns the view does not emit |
| PersonaViews.AggregateViewBody | app/db/v3_ddl.py:496-535 | The grouped body has the grain, the role's measures and, for HOD only, the windows; dropped is the money the output lacks |
| PersonaViews.ColumnShows | app/db/v3_ddl.py:466-476 | Over every content, a projecting view has one row per base row, and in it a column its role may see holds the base cell |
| PersonaViews.SplitShows | app/db/v3_ddl.py:483-490 | A member split its role may see holds the source cell where customer_type is Member and 0 elsewhere |
| PersonaViews.HiddenShowsNothing | app/db/v3_ddl.py:474-485 | With every split under a money name flagged, no cell of an executive row has a money name |
| PersonaViews.ExecIsHodWithoutMoneyIff | app/db/v3_ddl.py:466-493 | For any columns, money set and splits: over every table content the EXEC projection is the HOD one with the money columns removed, row for row, exactly when every applicable split is flagged as its alias is listed |
| PersonaViews.ExecRollupIsHodWithoutMoney | app/db/v3_ddl.py:496-535 | The same for an aggregating view: groups, order and every non-money cell agree |
| PersonaViews.ExecIgnoresMoneyIff | app/db/v3_ddl.py:317-332 | For a projecting view: two contents that differ only in money give the same EXEC result, for all contents, exactly when every split an EXEC keeps reads no money column |
| PersonaViews.ExecRollupIgnoresMoneyIff | app/db/v3_ddl.py:496-535 | The same for an aggregating view: exactly when no group key and no EXEC measure reads a money column |
| Relations.RunReadsOnly | app/db/v3_ddl.py:466-535 | A view's result depends on no column outside those its terms mention |
| Rollup.GroupTotals | app/db/v3_ddl.py:513-522 | Summing the per-group sums of the selected groups is summing the selected rows, NULLs included |
| Rollup.RollupPreservesTotals | app/db/v3_ddl.py:496-535 | For every predicate on the grain, totals over the view equal totals over the base rows |
| Rollup.MemberTotalsAgree | app/db/v3_ddl.py:483-490 | A FILTER (customer_type = 'Member') sum and the CASE-built member split have equal totals, NULL counted as 0 |
| Rollup.FilterRankCommute | app/db/v3_ddl.py:295-310 | Filtering on partition columns before or after grouping and ranking gives the same rows, ranks and flags |
| Rollup.LoserLosesRank | app/db/v3_ddl.py:295-310 | A filter that splits a partition changes a rank: the two-row content that shows it |
| Rollup.FilterRankCommuteIff | app/db/v3_ddl.py:295-310 | A filter on the group key may move below the windows over every content exactly when it is a function of the PARTITION BY columns |
| ServingSchema.EveryExecViewRefinesHod | app/db/v3_ddl.py:140-332 | Each of the seven shipped views, whatever columns and rows its base table has: EXEC is HOD with the money projected away, and does not depend on the money columns of the base table |
| ServingSchema.ExecSeesNoAmounts | app/db/v3_ddl.py:140-172 | Over every content of every base table, no row an executive is shown by a shipped view has a cell under a name of that view's amounts and ranks |
| ServingSchema.StoreMonthlyRankCommutesIff | app/db/v3_ddl.py:295-310 | For the shipped view the condition is: a function of month, OpCo and category |
| ServingSchema.StoreMonthlyTotals | app/db/v3_ddl.py:257-312 | Transactions, quantity, gross and GMV totals over the shipped view equal those over the facts, for every grain predicate |
| ServingSchema.StoreMonthlyMemberTotals | app/db/v3_ddl.py:282-294 | Its member totals equal those of the splits generated for v_sales_daily |
| StoreMonthly.TwoFactsOneRowIff | app/db/v3_ddl.py:245-255 | Over any facts, two of them are shown by one row of v_sales_store_monthly iff their dates agree in year and month and their eight other grain columns agree |
| StoreMonthly.OneRowOrTwo | app/db/v3_ddl.py:513-522 | Over two facts the view has one row or two, accordingly |
| StoreMonthly.EveryFactHasOneRow | app/db/v3_ddl.py:513-522 | Every fact is covered by exactly one row: its month_start_date is the first day of the fact's month, its other grain cells are the fact's |
| StoreMonthly.EveryRowHasAFact | app/db/v3_ddl.py:513-522 | And every row of the view covers some fact |
| StoreMonthly.CellsAreTotals | app/db/v3_ddl.py:260-294 | Each of the six total cells is the arithmetic total of its column over the facts its row covers, over the members' facts for the two member totals, and NULL where there is no number |
| StoreMonthly.RanksAreByMonth | app/db/v3_ddl.py:295-310 | category_sales_rank is one more than the number of rows of the same month, OpCo and category with a NULL or larger gross amount, and is_top_100 says whether that is at most 100 |
| ServingSchema.ShippedWellFormed | app/db/v3_ddl.py:140-332 | The shipped configuration satisfies what the catalogue theorem asks of one |
| ServingSchema.ShippedCatalogueAgrees | app/service/glossary_service.py:122-258 | The shipped views and an ingested service of the shipped configuration agree for both roles and every column name |
| Catalogue.BuildBaseToViews | app/service/glossary_service.py:46-48 | Every view is listed under its base, in order, however many share a base |
| Catalogue.DerivedColumnSpecs | app/service/glossary_service.py:122-211 | The three loops build the splits, the aggregate aliases and the windows a view has beyond its base |
| Catalogue.RowsByView | app/service/glossary_service.py:214-258 | The filed entries are the surfaced glossary rows followed by the derived columns with inherited roles |
| Catalogue.EntryOrigin | app/service/glossary_service.py:214-258 | An entry is filed exactly when a surfaced row or a derived column of its view yields it |
| Catalogue.GlossaryService.FileEntry | app/service/glossary_service.py:450-552 | One entry adds its column to the right view and, unless its lower-cased name is hidden, one row to the dictionary and to its table, and nothing else |
| Catalogue.GlossaryService.Ingest | app/service/glossary_service.py:450-552 | After ingestion a view's column set is exactly the filed ones, the dictionary is exactly the visible entries, rows_by_table splits it, and all_tables are the tables with columns |
| Catalogue.ShownIff | app/service/glossary_service.py:450-590 | A caller is shown a column of a table iff the table is a view or joinable dimension, not forbidden and not named copilot_.., the lower-cased column is neither updated_at nor created_at, and an entry files it that is not HOD-only or the caller sees money |
| CatalogueAgreement.PlainTableYields | app/service/glossary_service.py:214-258 | A table that is no view, and that none is built on, is filed exactly its own glossary rows, with their roles |
| CatalogueAgreement.FiledAsMeans | app/service/glossary_service.py:122-258 | A column is filed for a role under a view exactly when a base column or a derived column gives it |
| CatalogueAgreement.CatalogueAgreesWithCompiler | app/service/glossary_service.py:566-588 | In a service that has ingested the glossary, for every view: columns_by_table holds the columns the HOD view projects, and visible_rows names, for each role, exactly the columns that role's view projects, apart from the hidden system columns |
| CategoryTree.CollectNodes | app/scripts/load_reference_data.py:180-202 | One fresh object per distinct path of the catalogue, in first-seen order |
| CategoryTree.AssignKeys | app/scripts/load_reference_data.py:204-206 | Keys are consecutive in sorted order and nothing else of a node changes |
| CategoryTree.LinkAncestors | app/scripts/load_reference_data.py:215-220 | The ancestor maps hold every level up to the node's own, with that prefix's key and name |
| CategoryTree.LinkNodes | app/scripts/load_reference_data.py:208-220 | Every node gets its parent key, and is_leaf survives exactly on childless nodes |
| CategoryTree.BuildCategoryNodes | app/scripts/load_reference_data.py:179-222 | The mutated objects, in order, are those the functional description reads off the sorted paths |
| CategoryTree.SortSorts | app/scripts/load_reference_data.py:204-204 | The sort is increasing in a strict total order and keeps exactly the paths |
| Ordering.StringLessIffEarlier | app/scripts/load_reference_data.py:204-204 | One string sorts before another iff at the first place they differ it has the smaller character, or it ends there |
| Ordering.TupleLessIffEarlier | app/scripts/load_reference_data.py:204-204 | Tuples of strings follow the first component in which they differ |
| CategoryTree.KeysFollowTheOrder | app/scripts/load_reference_data.py:204-206 | Keys count up from 1000, and one node has the smaller key iff its OpCo sorts earlier, or its level is smaller, or its code sorts earlier at the first place the paths differ, in this order |
| CategoryTree.NodesAreFilledPaths | app/scripts/load_reference_data.py:180-202 | A node exists for a path iff some record with a non-blank OpCo has it as its first line, division, group and category codes, all of them non-blank |
| CategoryTree.CatalogueIsForest | app/scripts/load_reference_data.py:179-222 | Every catalogue gives a forest: four levels at most and every parent path present |
| CategoryTree.KeysAreDeterministic | app/scripts/load_reference_data.py:18-21 | Catalogues with the same rows, in any order and repetition, give the identical node sequence |
| CategoryTree.ParentsPrecede | app/scripts/load_reference_data.py:209-222 | Below level 1 the parent exists one level up with a strictly smaller key; level 1 has none |
| CategoryTree.IndexEqualsTree | app/scripts/load_reference_data.py:209-222 | x lies under a by parent keys iff x's ancestor key at a's level is a's key |
| CategoryTree.LeafIffNoChild | app/scripts/load_reference_data.py:209-222 | is_leaf holds iff no node names it as parent |
| CategoryTree.LevelKeysMatchLevel | alembic/versions/20260727_02_v3_dimensions.py:160-165 | The table's level constraint holds: level keys exist to the node's own level and no further |
| CategoryTree.SiblingCodesAreUnique | alembic/versions/20260727_02_v3_dimensions.py:173-177 | The sibling-code index never conflicts: OpCo, parent and code determine the node |
| IdentityRule.IsInsideCountDistinct | app/agents/sql_validator_agent.py:194-204 | The upward walk finds a COUNT(DISTINCT) above the column iff one encloses it in its SELECT |
| IdentityRule.IsInsideDisallowedAggregate | app/agents/sql_validator_agent.py:436-451 | The upward walk finds an aggregate that is not COUNT(DISTINCT) iff one encloses the column |
| IdentityRule.EnclosingSelect | app/agents/sql_validator_agent.py:240-244 | The walk returns the nearest SELECT above, and None only if there is none |
| IdentityRule.DerivedNames | app/agents/sql_validator_agent.py:352-356 | Exactly the names aliased, anywhere in the query, to an expression that returns identity |
| IdentityRule.ReturnedByClause | app/agents/sql_validator_agent.py:387-396 | True iff a clause of the SELECT that holds the column returns identity |
| IdentityRule.CheckColumn | app/agents/sql_validator_agent.py:358-396 | Each column is let through exactly under the rule's condition for it |
| IdentityRule.ValidateIdentityColumns | app/agents/sql_validator_agent.py:296-406 | The loop with early returns accepts exactly the trees whose every column is allowed |
| IdentityRule.ReturnsIffCarried | app/agents/sql_validator_agent.py:409-433 | The downward recursion finds identity iff some identity column is carried, step by step, to the expression's value |
| IdentityRule.IdentityRuleExact | app/agents/sql_validator_agent.py:296-406 | For a SELECT whose projections and GROUP BY nest no SELECT: accepted iff customer_key is under no aggregate but COUNT(DISTINCT) and neither returns it or a name aliased to an expression that returns it |
| IdentityRule.UnionRuleExact | app/agents/sql_validator_agent.py:219-237 | For a UNION whose SELECT sides nest none: accepted iff the same holds of both sides, and outside every SELECT such names stand only where customer_key is counted by COUNT(DISTINCT) or equated with its like |
| IdentityRule.UnionSidesReturnNone | app/agents/sql_validator_agent.py:228-233 | In an accepted UNION, whatever its sides nest, no projection or GROUP BY expression without a SELECT in it, of either side, returns one |
| IdentityRule.OtherRootRuleExact | app/agents/sql_validator_agent.py:234-237 | For any other root, such as a parenthesised query, the same of the SELECT that comes first by depth and then from the left |
| SqlAst.LevelsInOrder | app/agents/sql_validator_agent.py:236-237 | The traversal behind find and find_all is breadth first, left to right |
| IdentityFlow.TaintIsLeast | app/agents/sql_validator_agent.py:296-356 | Where identities flow: the least set of places that holds the stored identity columns and is closed under one step of flow, by expressions, aliases, UNION sides and whatever a column is resolved to |
| IdentityFlow.InfluenceIffTainted | app/agents/sql_validator_agent.py:296-356 | The value of a cell of any row depends on identity values exactly when an identity flows to it, for every way of resolving names |
| IdentityFlow.TaintedIffMade | app/agents/sql_validator_agent.py:409-433 | An identity flows to a place exactly when some column that reads one is carried into it |
| IdentityFlow.NoIdentityNoInfluence | app/agents/sql_validator_agent.py:409-433 | An expression the rule's test calls free of identity does not depend on it, nested SELECTs included |
| IdentityFlow.ReturnsIffInfluences | app/agents/sql_validator_agent.py:409-433 | For an expression with no query in it the test is exact |
| IdentityFlow.ShowsIff | app/agents/sql_validator_agent.py:219-237 | A row of the result shows an identity exactly when a column reads one that surfaces in the result: in any branch of any nesting of UNIONs, parentheses and scalar subqueries |
| IdentityFlow.AcceptedShowsIff | app/agents/sql_validator_agent.py:296-406 | However names are resolved, an accepted query shows an identity exactly when one surfaces by a column the rule's own guards pass over |
| IdentityFlow.OverlookedWays | app/agents/sql_validator_agent.py:358-380 | There are three ways to be passed over: a name the rule does not look for, a branch it does not call outermost, a nested SELECT |
| IdentityFlow.AcceptedShowsNone | app/agents/sql_validator_agent.py:296-406 | With columns resolved by name, only outermost columns surfacing and every output an identity reaches called by a name the rule looks for, an accepted query shows none |
| IdentityEscapes.ThreeBranchesEscape | app/agents/sql_validator_agent.py:219-237 | SELECT customer_key .. UNION ALL SELECT .. UNION ALL SELECT .. is accepted and shows the identity: its first branch is not called outermost |
| IdentityEscapes.ParenthesisedEscapes | app/agents/sql_validator_agent.py:219-237 | So is a UNION whose second side stands in parentheses |
| IdentityEscapes.UnionPositionEscapes | app/agents/sql_validator_agent.py:352-356 | An identity that takes its name from the other branch of a UNION is shown |
| IdentityEscapes.ColumnListEscapes | app/agents/sql_validator_agent.py:352-356 | So is one named by the column list of a derived table |
| IdentityEscapes.WithListEscapes | app/agents/sql_validator_agent.py:352-356 | And one named by the column list of a CTE |
| IdentityEscapes.ImpliedNameEscapes | app/agents/sql_validator_agent.py:352-356 | And a piece of one that goes by the name the database implies |
| IdentityEscapes.RenamedTwiceEscapes | app/agents/sql_validator_agent.py:352-356 | And one renamed twice |
| IdentityEscapes.ScalarSubqueryEscapes | app/agents/sql_validator_agent.py:240-244 | And one selected by a scalar subquery of the projection |
| IdentityEscapes.EitherSideRefused | app/agents/sql_validator_agent.py:228-233 | A UNION is refused whichever of its two sides projects customer_key, and accepted when neither does |
| CustomerGrain.ParentSelect | app/agents/sql_validator_agent.py:477-532 | The SELECT a node belongs to, and only that one |
| CustomerGrain.SelectReadsGrainView | app/agents/sql_validator_agent.py:477-532 | True iff a table of that SELECT's own FROM is a customer-grain view |
| CustomerGrain.ValidateCustomerGrain | app/agents/sql_validator_agent.py:477-532 | Accepts exactly the queries in which no plain COUNT belongs to a SELECT reading a customer-grain view |
| CustomerGrain.GrainRuleReads | app/agents/sql_validator_agent.py:477-532 | It refuses exactly the queries with a COUNT, not DISTINCT in either spelling, that shares its nearest SELECT with v_customer_opco_monthly or v_customer_category_monthly |
| Repeats.SettledIgnoresRepeats | app/agents/sql_validator_agent.py:497-500 | Over any FROM with joins, derived tables, DISTINCT and GROUP BY, any correlated subqueries in conditions, any meaning of the expressions and any contents: an aggregate ignores repeated base rows when every multiplicity-sensitive aggregate below it is fed rows that cannot repeat |
| Repeats.IgnoresRepeatsIff | app/agents/sql_validator_agent.py:497-500 | That condition is exact, over all meanings of the expressions, for queries without COUNT(*) |
| QueryShape.OwnTableInFrom | app/agents/sql_validator_agent.py:502-507 | A SELECT with a base table of its own, read under the names WITH binds, has a FROM whose rows can repeat |
| CustomerGrain.CountIgnoresRepeatsIff | app/agents/sql_validator_agent.py:477-532 | A COUNT of a SELECT that reads a grain view, accepted or refused, ignores repeated rows, for every meaning of its expressions, iff its FROM and WHERE, with the CTEs they name, feed no multiplicity-sensitive aggregate rows that may repeat, and it is DISTINCT unless a CTE of that name reduces the view |
| CustomerGrain.AcceptedCountIgnoresRepeatsIff | app/agents/sql_validator_agent.py:497-500 | In an accepted query it does iff its FROM and WHERE, with the CTEs they name, are settled in that sense |
| CustomerGrain.GrainRuleIff | app/agents/sql_validator_agent.py:477-532 | On queries whose grain-view SELECTs are settled and whose CTEs take no grain view's name, the rule accepts exactly those none of whose counts a repeated row can change |
| GrainEscape.DistinctTotalsEscape | app/agents/sql_validator_agent.py:497-500 | COUNT(DISTINCT x.total) over a join with per-customer sums is accepted, and repeating one row of the view turns 2 into 1 |
| GrainEscape.WithTotalsEscape | app/agents/sql_validator_agent.py:497-500 | The same query with the sums named by WITH is accepted too, reads as the same query, and changes the same way |
| TraitsJoin.NoFanOutIff | app/service/table_registry.py:228-232 | A join on customer and month repeats no row of a side iff no row of that side has two matches |
| TraitsJoin.TraitsJoinIff | app/service/table_registry.py:228-232 | Joining the traits view repeats no OpCo row, whatever the OpCo rows, iff (customer, month) is unique in it |
| TraitsJoin.TwoOpcosRepeatTraits | app/service/table_registry.py:271-273 | "One row each side" fails on the traits side: a customer in two OpCos has its traits row twice |
| MoneyUnits.RunPass | app/service/currency.py:92-102 | One pass adds exactly what the pass function adds, and reports whether anything changed |
| MoneyUnits.MoneyOutputNames | app/service/currency.py:75-106 | The loop with early exit computes the result of all eight passes |
| MoneyUnits.PassFixesClosed | app/service/currency.py:53-106 | A pass adds nothing iff every named projection outside the set touches no money or is a ratio of money to money |
| MoneyUnits.ClosedWithinBound | app/service/currency.py:75-106 | With at most eight distinct names outside the declared columns the result is closed |
| MoneyUnits.MoneyIsDerived | app/service/currency.py:75-106 | Every name called money has a chain of projections that reaches a declared currency column |
| MoneyMeaning.MoneyMeans | app/service/currency.py:53-106 | With at most eight new names: a declared column is money, so is the alias or column name of every projection of any SELECT that reads a money column at any depth and nowhere divides money by money, and any other name called money is that of a projection that reads one |
| MoneyMeaning.MoneyIsLeast | app/service/currency.py:75-106 | Where no projection is such a ratio, the result is the least set that holds the declared columns and the name of every projection reading one of it |
| MoneyUnits.NinthNameEscapes | app/service/currency.py:75-106 | Any chain of nine or more renamings, consumer first, is not closed after eight passes |
| MoneyUnits.NestedProjections | app/service/currency.py:92-95 | SELECTs nested in FROM, each renaming the inner column, are traversed consumer first |
| MoneyUnits.ChainEscapes | app/service/currency.py:75-106 | Such a query with more renamings than passes is not followed to its end, for any number of passes |
| MoneyUnits.NineRenamesEscape | app/service/currency.py:75-106 | The concrete query nine SELECTs deep over gmv_amount |
| MoneyUnits.SufficesIff | app/service/currency.py:75-106 | "At most b new names" is enough for every query and every declared set iff b is at most eight |
| MoneyRatios.RatioIffLate | app/service/currency.py:59-72 | A name the passes added is a ratio of money to money in the end iff one of its divisions had an operand without money when the name was added, and with money in the end |
| MoneyRatios.WronglyMoneyIff | app/service/currency.py:92-102 | A name of one projection is wrongly called money exactly then |
| MoneyRatios.WronglyMoneyIsLate | app/service/currency.py:92-102 | Every name wrongly called money, of however many projections, met such a late division |
| MoneyRatios.ShareIsWronglyMoney | app/service/currency.py:59-66 | SELECT gmv_amount / b AS share FROM (SELECT gmv_amount, gross_sales_amount AS b ..) calls the share money |
| MetricRegistry.MetricService.constructor | app/service/metric_service.py:117-135 | The loading loop leaves the registry and the synonym index that the rows mean, in row order |
| MetricRegistry.MetricService.Register | app/service/metric_service.py:117-135 | One row replaces its key's metric and files its key under every non-blank name |
| MetricRegistry.MetricService.Available | app/service/metric_service.py:173-185 | Exactly the metrics the caller may use |
| MetricRegistry.MetricService.Match | app/service/metric_service.py:275-315 | The loop over synonyms finds the exact claimants, else the claimants of a longest contained synonym, and breaks the tie by the preference |
| MetricRegistry.MetricService.Prefer | app/service/metric_service.py:317-329 | The least money key when money is preferred and in the tie, else the least key |
| MetricRegistry.MetricService.Resolve | app/service/metric_service.py:187-207 | The metric the order-free specification names |
| MetricMeaning.ResolvedIsChosen | app/service/metric_service.py:187-329 | For rows with distinct keys the result is the metric the caller may use whose name or synonym, normalised, is the phrase, else a longest such name that occurs in it; among several a money metric if the caller sees money, then the key first in the dictionary; None iff there is none |
| Ordering.LeastIsEarliest | app/service/metric_service.py:323-329 | The key preferred in a tie comes before every other by the first differing character |
| TextUtils.NormalizeJoins | app/utils/text_utils.py:16-21 | Normalising keeps lower-cased words, and whatever else stands between two of them becomes one space, or nothing at the ends |
| MetricRegistry.MetricService.WithheldFor | app/service/metric_service.py:209-242 | The money metric asked for and its stand-in, which exists iff a usable volume metric shares a synonym |
| MetricRegistry.MetricService.VolumeTwin | app/service/metric_service.py:244-273 | The nested loops give the first usable volume metric, name by name and within a name in registry order |
| MetricRegistry.SortedSet | app/service/metric_service.py:323-323 | Strictly increasing with the same elements |
| MetricRegistry.PermutedRegistry | app/service/metric_service.py:278-290 | A permutation of rows with distinct keys gives the same metrics and the same synonym claims |
| MetricRegistry.ResolveIgnoresOrder | app/service/metric_service.py:187-207 | resolve gives the same metric from any permutation of the registry |
| MetricRegistry.IndexListsInOrder | app/service/metric_service.py:131-135 | The index lists under each synonym exactly its claimants in row order |
| MetricRegistry.WithheldIgnoresOrder | app/service/metric_service.py:209-242 | The withheld metric and whether it has a stand-in are the same from any permutation |
| MetricRegistry.TwinIgnoresOrderIff | app/service/metric_service.py:244-273 | Which stand-in is reported is the same from every permutation of the rows iff at the first name of the metric that any usable volume metric claims exactly one claims it |
| MetricRegistry.TwinDependsOnOrder | app/service/metric_service.py:244-273 | Three rows in two orders with two different stand-ins |
| MetricRegistry.WithheldIsTheHodAnswer | app/service/metric_service.py:209-242 | An EXEC is told exactly what an HOD's resolve returns when that is money, and nothing otherwise |
| MetricRegistry.ExecNeverGetsMoney | app/scripts/load_metric_definitions.py:78-82 | With money metrics marked HOD, an EXEC never resolves to one |
| MetricRegistry.HodGetsMoneyOnATie | app/service/metric_service.py:317-329 | For an HOD a tie that holds a money metric is resolved to money |
| StreamQueue.Stream.Put | app/service/copilot_service.py:334-335 | The writer's put is the write step and keeps the invariant |
| StreamQueue.Stream.Finish | app/service/copilot_service.py:337-354 | The producer's finally clause queues the sentinel only into a free slot |
| StreamQueue.Stream.Pull | app/service/copilot_service.py:361-376 | One round of the loop forwards the oldest item, ends on the sentinel, or beats on an empty queue |
| StreamQueue.Stream.Finale | app/service/copilot_service.py:378-401 | The yields after the loop are exactly the tail of the outcome |
| StreamQueue.Stream.Abandon | app/service/copilot_service.py:412-418 | A disconnect cancels a running producer |
| StreamQueue.DisconnectStops | app/service/copilot_service.py:412-418 | A client may go at any moment before its last event; a producer that still runs is then cancelled, and nothing is sent or written any more |
| StreamQueue.InvStep | app/service/copilot_service.py:326-418 | Every step of every interleaving keeps the protocol's invariant |
| StreamQueue.StreamSafety | app/service/copilot_service.py:326-418 | The queue never exceeds 512; forwarded and pending items are the written ones in order; meta, delta, final, done and error come only after all of them |
| StreamQueue.DoneMeansComplete | app/service/copilot_service.py:378-401 | A client that saw done saw everything written, then exactly meta, the answer as a delta unless it is analytics or empty, final and done of a graph that returned, and no error |
| StreamQueue.FinishedMeans | app/service/copilot_service.py:357-410 | A client that was sent everything got status, the written items among keepalives, and then that ending, or one error for a graph that raised |
| StreamQueue.EveryStepIsNearer | app/service/copilot_service.py:361-401 | With the sentinel queued, a step is possible until the end and every step but a disconnect is one nearer to it |
| StreamQueue.KeepsReadingReachesDone | app/service/copilot_service.py:361-401 | A consumer that keeps reading reaches done in exactly the counted steps, with everything forwarded |
| StreamQueue.LostStaysLost | app/service/copilot_service.py:347-354 | Once the sentinel is dropped neither done nor error is ever sent |
| StreamQueue.DoneReachableIffSlot | app/service/copilot_service.py:347-354 | When the graph returns, done can still be reached iff the queue has a free slot at that moment |
| StreamQueue.FullQueueLosesDone | app/service/copilot_service.py:347-354 | The run of 512 writes from the start fills the queue with a running producer; if its graph returns then, done is never reached |
| TextUtils.InternalFreeText | app/utils/text_utils.py:251-280 | The loop keeps the user's own lines, and the whole text when there are none |
| TextUtils.UserLinesIff | app/utils/text_utils.py:267-280 | A text has a user line iff some line of it is non-blank, unmarked and holds no meta phrase |
| TextUtils.OwnMeans | app/utils/text_utils.py:251-280 | A line is the user's own iff it is not blank, does not hold the [internal] marker in any case, and none of the ten phrases the copilot writes occurs in it normalised |
| TextUtils.LineEnds | app/utils/text_utils.py:251-280 | A text's first line ends at its first break, a line feed right behind a carriage return being part of it |
| TextUtils.SplitAtFeed | app/utils/text_utils.py:251-280 | A line feed after a text that ends in no break separates its lines from the following ones |
| Clarification.BuildFollowupQuery | app/policies/clarification_policy.py:672-759 | The guards in order decide whether the reply is merged; the merged query is the question followed by the branch's marked lines, and an unmerged one is the reply when it names a lookup field, else the raw text |
| Clarification.StripMergeIff | app/utils/text_utils.py:251-280 | Stripping a merge gives the stripped question iff the inserted text has no user line |
| Clarification.NoUserLineNoRoundTrip | app/utils/text_utils.py:251-280 | A question made of internal lines only does not survive a merge |
| Clarification.MarkedLinesVanish | app/utils/text_utils.py:251-280 | Any number of single-line marked lines adds no user line |
| Clarification.MergeStripRoundTrip | app/policies/clarification_policy.py:713-759 | In every merge branch, stripping the merged query gives the stripped question, and the merge can be merged again |
| Clarification.RepeatedMergesStrip | app/policies/clarification_policy.py:713-759 | The same after any number of merges |
| Clarification.MultiLineReplyIff | app/policies/clarification_policy.py:755-759 | A reply of any number of lines, with any breaks and blanks, round-trips iff no line after its first is the user's own |
| Clarification.DetailReplyIff | app/policies/clarification_policy.py:755-759 | The same of the query the builder makes of it |
| Clarification.TwoLineReplyStays | app/policies/clarification_policy.py:755-759 | "sales" clarified by "5" and "6" on two lines does not strip back to "sales" |
| Clarification.LastAssistantPayloadIndex | app/policies/clarification_policy.py:174-187 | The last readable assistant payload, or none is readable |
| Clarification.ActiveWindowStart | app/policies/clarification_policy.py:296-332 | The start of the longest run of clarifications that ends the history, when its last payload is one |
| Clarification.ChainStartUnique | app/policies/clarification_policy.py:296-332 | There is one such start |
| Clarification.SplitHistory | app/policies/clarification_policy.py:250-349 | The window and the history without it partition the history |
| Session.PgSession.SetRole | app/db/session_scope.py:59-68 | The role is the target, or after a refused SET the login role and never a leftover one |
| Session.PgSession.EnterCopilotScope | app/db/session_scope.py:113-148 | When every setup command is accepted, role, level and first schema are set from the same level, whatever role the connection was left in; when one fails the transaction is unusable |
| Session.PgSession.SafeReset | app/db/session_scope.py:81-100 | Roll back, then reset, each failing silently |
| Session.PgSession.AssertScopeActive | app/db/session_scope.py:156-209 | Passes iff the transaction is usable, the level is set and known, and the role is the one it maps to |
| Session.PgSession.RunSql | app/service/sql_executor.py:96-240 | Assertion, timeout setting, savepoint, capped fetch, release and error payloads, each of which may fail, with the exact session left behind |
| Session.ScopeOverStatements | app/service/sql_executor.py:135-150 | Any sequence of failing, timing-out and succeeding statements leaves role, level and schema in place |
| Session.RetryStillRuns | app/service/sql_executor.py:135-144 | After a failed statement the next one still gets its answer |
| Session.ScopeAssertIff | app/db/session_scope.py:53-57 | Inside the scope the assertion passes iff the level is known and the two identifier fallbacks agree |
| Session.RollbackRefusesSql | app/service/sql_executor.py:137-141 | After a full rollback every statement is refused, not run |
| Session.MatchedPair | app/db/session_scope.py:124-128 | Role and schema of a scope belong to the same persona |
| Session.ExitRoleIff | app/db/session_scope.py:81-100 | The role after leaving is the login role exactly when the reset ran or the rollback already restored it |
| Session.TruncationIsExact | app/service/sql_executor.py:112-157 | In its scope a statement that returns rows gets the first MAX_QUERY_ROWS of them, one if the setting is below one, and truncation is reported iff there were more |
| Session.NoRowsWithoutAnswer | app/service/sql_executor.py:96-240 | Any other run_sql call gives no rows and an error: the missing scope's, the timeout's, or the statement's own |
| Session.BareIdentIff | app/db/v3_ddl.py:338-351 | The pattern passes exactly the ASCII words of letters, digits and underscores that start with no digit, and each with one line feed behind it |
| Session.IllFormedNamesFallBack | app/db/session_scope.py:124-145 | Every level but HOD gets the executive role and schema; an ill-formed HOD role or schema gives way to the executive one |
| Session.ExpectedRoleIs | app/db/session_scope.py:53-57 | The role assertion passes iff the transaction is usable, the level is HOD or EXEC, and the role is the configured one, or ci_copilot_exec where that is ill-formed |
| TurnGraph.BuildCopilotGraph | app/graph/copilot_graph.py:15-150 | The successive calls build exactly the nodes, edges and branches of the two successor functions |
| TurnGraph.OneWayOut | app/graph/copilot_graph.py:52-148 | Every node but the end has an edge or branches, never both |
| TurnGraph.RetryIsTheOnlyWayUp | app/graph/copilot_graph.py:125-125 | Every cycle goes through retry_sql |
| TurnGraph.OnlySaveTurnEnds | app/graph/copilot_graph.py:139-148 | The end is reached from save_turn only |
| TurnGraph.PathLength | app/graph/copilot_graph.py:52-148 | The length of every path is bounded by its retries |
| Turns.Normalized | app/agents/planner_agent.py:88-123 | A normalised plan is consistent: SQL exactly when answerable, no refusal cause unless unsupported, no question on a refusal |
| Turns.NormalizedIsStable | app/agents/planner_agent.py:88-123 | Consistent plans are exactly those normalisation leaves alone |
| Turns.SqlPlan.Normalize | app/agents/planner_agent.py:88-123 | The successive field assignments compute the normalised plan |
| Turns.ClassifySqlError | app/service/sql_executor.py:66-93 | The explanation of a failure is never empty, so the router sees it |
| Turns.FailureSeenIff | app/graph/nodes/execution_nodes.py:58-84 | Whatever the session, a refused or failed statement counts as failed iff it does not fail without a message; else it passes for no rows |
| Turns.SilentFailures | app/graph/nodes/execution_nodes.py:70-75 | The two ways: a statement error of no text, a refused timeout setting of no text |
| Turns.RoutersStayOnTheGraph | app/graph/copilot_graph.py:72-135 | No router returns a key its node has no branch for |
| TurnRouting.AfterClassifyIntent | app/graph/nodes/intent_nodes.py:11-70 | A reply to a clarification goes to the resolver whatever the router says; any other turn to smalltalk, the glossary or the previous answer by its route, and for every other route to the resolver |
| TurnRouting.AfterLoadContext | app/graph/nodes/context_nodes.py:30-165 | The query is replaced and the user's own kept, and of the last messages up to the limit only some at the end may be dropped |
| TurnRouting.AfterAnswerFromPrevious | app/graph/nodes/response_nodes.py:109-112 | The previous answer is saved, unless it asks for a new plan, which goes to the resolver |
| TurnRouting.AfterResolveLookup | app/graph/nodes/lookup_nodes.py:276-281 | Money with no stand-in is refused, a resolver that raises or asks leads to its question, anything else to planning |
| TurnRouting.AfterMakePlan | app/graph/nodes/planning_nodes.py:160-173 | Only an answerable plan with SQL and no objection to its period is validated; an identity refusal, another refusal and a question each have their own way |
| TurnRouting.AfterValidateSql | app/graph/nodes/execution_nodes.py:49-56 | Accepted SQL runs as the validator rewrote it; rejected SQL is planned again while retries last, and then ends in an error |
| TurnRouting.AfterExecuteSql | app/graph/nodes/execution_nodes.py:79-84 | A result goes on to the analysis, an error with a message back to planning while retries last, and then to the error answer |
| TurnRouting.AfterGlossaryAnswer | app/graph/nodes/response_nodes.py:114-140 | The answer is a glossary entry, or a question where the glossary matched nothing |
| TurnRouting.AfterSaveTurnKeeps | app/graph/nodes/context_nodes.py:202-233 | The history gains the user's own words, unless empty, and the answer, and its last messages are kept: as many as the limit, 12 where it is zero, and never fewer than two |
| TurnRouting.AfterOthers | app/graph/copilot_graph.py:52-148 | Every other node has one way on |
| TurnRouting.KindIsExplained | app/graph/copilot_graph.py:72-148 | The kind of every finished response says how its turn went: smalltalk iff that was the route, analytics only after a statement without an error or from the previous answer, an error only with no retry left and a failure recorded |
| TurnRouting.NoticesByLevel | app/graph/nodes/response_nodes.py:185-199 | An HOD is never told that money was withheld, a refusal starts with a denial for customer identity or withheld money, and nothing but a money substitution is recorded on the way |
| TurnRouting.FollowUpsAreResolved | app/graph/nodes/intent_nodes.py:25-42 | In every run a reply to a clarification goes through the resolver before anything answers it |
| TurnRuns.EveryRunEnds | app/graph/nodes/execution_nodes.py:49-87 | However every model, resolver and database answers, a run takes at most 11 + 4 * max(0, max_sql_retries) steps |
| LongestRun.BoundIsReached | app/graph/nodes/execution_nodes.py:49-87 | In a scope that runs SQL some run takes all of them |
| TurnRuns.FinishedRunsSaveOnce | app/graph/nodes/context_nodes.py:167-233 | A run that is not cut off saves exactly once, with a result whose policies are set, keep to the notices and carry every substitution recorded on the way unless planning refused |
| TurnRuns.PlansAndStatementsAreBounded | app/graph/nodes/execution_nodes.py:49-87 | At most max_sql_retries + 1 plans, and no more statements than plans |
| TurnRuns.OnlyAcceptedSqlRuns | app/graph/nodes/execution_nodes.py:25-61 | Every statement sent is the text the validator and the shape guard accepted in the step before |
| TurnRuns.EveryCallFindsItsRole | app/db/session_scope.py:113-153 | Every run_sql call of every run finds the role and level of its caller |
| TurnRuns.NoSqlAfterRollback | app/graph/nodes/lookup_nodes.py:97-121 | After the resolver's rollback nothing is planned or sent: only the clarification and the save are left |
| TurnRuns.ValidationNeverRefuses | app/graph/nodes/execution_nodes.py:49-51 | The edge from validation to the refusal is never taken |
| TurnRuns.NoticesStep | app/graph/nodes/response_nodes.py:175-200 | Every step keeps the notices: unsupported has none, out_of_scope starts with a denial of a known code, an HOD never gets role_money_withheld |
| TurnRuns.RefusalIsOk | app/graph/nodes/response_nodes.py:185-199 | The refusal's list is the denial followed by what was recorded before |
| TurnRuns.UnsupportedIsOk | app/graph/nodes/planning_nodes.py:192-213 | An unsupported response drops the recorded substitution and carries no policy |
| TurnRuns.HistoryEndsInThisTurn | app/graph/nodes/context_nodes.py:202-233 | The saved history is bounded and ends in the user's own words, not the rewritten query, and this turn's result |
| TurnRuns.AnswersComeFromTheLastStatement | app/graph/nodes/execution_nodes.py:58-75 | When an answer is synthesised its rows are those of the turn's last statement, whose text was accepted and which reported no error |
| TurnRuns.ScopeIsLeft | app/db/session_scope.py:150-153 | However a run ended, leaving the scope restores the login role, by the reset or on a clean connection by the rollback alone |
| TurnRuns.CheckpointDoesNotLeak | app/graph/nodes/context_nodes.py:235-296 | A consistency lemma over the fields of the model's turn: two checkpoints with the same query and history give the same runs |
| TurnNodes.CopilotGraphNodes.ResetTurnState | app/graph/nodes/context_nodes.py:235-296 | The overwritten fields are all of them but query and history |
| TurnNodes.CopilotGraphNodes.ResolveLookupEntities | app/graph/nodes/lookup_nodes.py:36-140 | Money check, resolver and rollback overwrite the turn and the session as specified, with the registry's own answer |
| TurnNodes.CopilotGraphNodes.MakePlan | app/graph/nodes/planning_nodes.py:35-158 | An assumed or missing period is turned into a clarification without SQL; any other plan is taken over with its refusal code |
| TurnNodes.CopilotGraphNodes.ExecuteSql | app/graph/nodes/execution_nodes.py:58-77 | The error field and the session are those of the run_sql specification |
| TurnNodes.CopilotGraphNodes.SaveTurn | app/graph/nodes/context_nodes.py:167-233 | The history gains this turn's messages up to the limit and the result its default policies |
| TurnNodes.CopilotGraphNodes.Invoke | app/graph/copilot_graph.py:15-150 | The loop over the built graph is one of the modelled runs, and it terminates |
| TurnNodes.Run | app/service/copilot_service.py:156-211 | A request from any checkpoint and any leftover role ends with the login role and, when it finishes, a result that keeps to its notices |
| Calendar.AddMonthsComposes | app/db/v3_ddl.py:551-553 | Month shifts add up across year boundaries in both directions |
| Calendar.MonthRangeIsMonth | app/db/v3_ddl.py:591-597 | The half-open range of a partition holds exactly the dates of its month |
| Calendar.MonthEndIsLastDay | app/utils/time_context.py:45-46 | _month_end is the last day, with leap years, and the next day is the first of the next month |
| Calendar.NextDayCounts | app/utils/time_context.py:45-46 | The next day of a real date is a real date whose day number, by an arithmetic with no month table and no leap year rule, is one more |
| Calendar.PrevDayCounts | app/utils/time_context.py:45-46 | So is the day before, one less |
| Calendar.AddDaysCounts | app/utils/time_context.py:73-75 | Adding n days to a real date gives the real date n days later |
| Partitions.PartitionMonths | app/db/v3_ddl.py:556-569 | The loop ends with back + forward + 1 consecutive months, and raises exactly when a month leaves the calendar |
| Partitions.PartitionedTable.CreateMonthlyPartitions | app/db/v3_ddl.py:576-604 | The table gains exactly the window's months and a DEFAULT, also on a replay |
| Partitions.PartitionCover | app/db/v3_ddl.py:583-602 | After any replays: a date of a created month has exactly that month's partition, every other date goes to DEFAULT |
| RelativePeriods.RollingStartSpills | app/utils/time_context.py:73-75 | The rolling window starts on the same day N months back iff that month is long enough; else it spills into the next by the difference |
| RelativePeriods.MonthlyRangeIsNMonths | app/utils/time_context.py:77-81 | The monthly range names exactly the N months that end with the current one |
| RelativePeriods.LastQuarterIsPreviousQuarter | app/utils/time_context.py:83-87 | A date is in "last quarter" iff it belongs to the calendar quarter before today's |
| RelativePeriods.SameDayLastYearIsReal | app/utils/time_context.py:91-94 | The year-ago day is a real date of the same month, 29 February becoming 28 |
| RelativePeriods.RangesExistIff | app/utils/time_context.py:73-94 | The ranges exist exactly when they do not reach back before the year 1 |

## Left out

- Language-model agents and their prompts: each answer is an arbitrary value of its result type.
- The SQL parser, the text screens in front of it and the validator's other rules (union ORDER BY, aliases, table allow-list, period filter, column ownership): the analyses start from a syntax tree, and a validator verdict on a text is an arbitrary input of a run.
- The entity resolver's internals: it may return any plan, leave the transaction usable or aborted, or raise.
- The SQL text of the generated statements, the view comments and the grants; a user statement is assumed not to change session settings, which the validator's text screen rejects.
- TurnRuns.CheckpointDoesNotLeak: covers the fields of the model's turn; the remaining checkpoint fields (glossary hits, contextual rewriting, lookup texts) are not modelled.
- `list`-valued `dropped` of the view compilers is a set in the model: its sorting is not captured.
- IdentityFlow.AcceptedShowsIff: tests, CASE choices and counts are taken to agree between two rows, since the rule allows identity in them; which columns exist and how a reference is resolved is an arbitrary input.
- CustomerGrain.CountIgnoresRepeatsIff: covers SELECTs whose FROM, WHERE and GROUP BY are made of tables, joins (inner and left), derived tables, DISTINCT, COUNT, SUM, MIN and MAX, with subqueries in conditions; names bound by WITH are read as the queries they stand for; a derived table or CTE with HAVING, LIMIT, windows, AVG, other aggregates, a UNION or recursion is outside it.
- Repeats.IgnoresRepeatsIff: "only if" is over all meanings of the expressions, so a query that reads only cells repeats cannot change still counts as sensitive if its FROM holds a sensitive aggregate; it leaves out COUNT(*) below the counted rows, for which the "if" half stands.
- Repeats: a subquery in a condition is read through its set of rows, so the error of a scalar subquery with several rows is not modelled.
- `build_product_rows`, `ltree_path` and `path_text`, and the cleaning of catalogue cells before the builder: formatting of already determined nodes.
- The explicit `months` argument of `create_monthly_partitions`: the model uses the default window.
- `lower` and the normalisation of lookup text act on ASCII letters; other letters are separators after lower-casing and case folding beyond ASCII is not modelled.
- Clarification.BuildFollowupQuery: the text predicates, option parsing and the search for the original question are arbitrary inputs; the reason strings are not modelled.
- `parenthesised_token_indices` and `safe_schema_name`: single scans without a property that spans functions.
- StreamQueue.Stream.Pull: a heartbeat that fires in the same instant an item arrives is not modelled, and framing and sanitising of events are left out.
- Currency formatting, chart building, answer prose, status events and feedback texts: the model keeps which message or list is produced, not its wording.
- `load_context` decides follow-up, rewriting and history pruning with model help: the model takes any rewritten query and any prefix of the recent history.
- `system_scope`: the same two operations as the copilot scope with another role.
- Usage tracking, tracing, access logs, checkpoint storage and the graph library's own recursion limit.
- Amounts are integers; floating-point rounding is not modelled.
