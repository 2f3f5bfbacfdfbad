# SMH options decision engine — a verified model

This project models the decision core of an options-trading assistant for the
SMH semiconductor ETF, in Dafny.

The engine works in four steps:

1. It describes a market day by a dictionary of features: IV rank, ADX, RSI,
   trend and volatility regimes, the flow of calls against puts, and range
   statistics.
2. It labels the day with one of ten option strategies. At training time a
   rule engine picks the label, and the best of a grid of candidate
   parameter sets is kept when at least ten similar past days exist. At
   prediction time a trained classifier picks the label and reports its
   confidence and top three.
3. It turns the label into a concrete trade on an option chain. This step
   chooses the expiry, the strikes by delta or by price, the prices from the
   bid/ask, and the contract count from the risk budget.
4. It passes the trade through a risk gate that approves or rejects it.

The modules follow the source files. `parameter_generator.py` is split into
six modules: `Risk`, `OptionChain`, `Trades`, `Payoffs`, `Strategies` and
`ParameterGen`. `3_create_labels.py` is split into two: `LabelGrids` and
`LabelScoring`. Every other module models one file. `Reals` and `Features`
hold shared helpers. Notes on the modules:

- `Risk` holds the risk manager.
- `OptionChain` holds the chain lookups.
- `Trades` holds the ten trade shapes and the coherence of their derived
  figures.
- `ParameterGen` holds the parameter generator. Each builder is split into
  its chain lookups (`…Quotes`), its assembly (`…At`) and their composition
  (`…Trade`).
- `Payoffs` is an independent expiry-payoff reference. The generator's
  reported maximum loss, maximum profit and breakevens are checked against
  it.
- `StrategySelector` is the rule engine and the label-distribution check.
- `LabelGrids` and `LabelScoring` cover label creation.
- `AdvancedFeatures`, `FeatureExtractor` and `FeatureEngineering` are the
  feature helpers.
- `Ranking` holds the top-k ranking.
- `StrategyPrediction` is the command-line predictor.
- `Recommendation` is the agent that combines prediction, generation and the
  risk gate.

Modelling conventions:

- Python floats are modelled as `real`.
- `int()` truncation is written out (`Risk.Trunc`).
- Python's `round` is taken as a parameter `round: real -> int`.
- The classifier, the backtest and the market data are parameters of the
  operations that use them.

## Model

| member | source | states |
|---|---|---|
| Risk.Trunc | scripts/utils/parameter_generator.py:56 | `int(x)` truncates toward zero: the result is within one of x on the side of zero |
| Risk.RiskManager.constructor | scripts/utils/parameter_generator.py:27-40 | account size, risk per trade and contract cap are kept as given |
| Risk.RiskManager.PositionSize | scripts/utils/parameter_generator.py:42-59 | a non-positive loss gives 1 contract; the count is between 1 and the cap; when one contract fits the budget, the position's loss stays within it, and one more contract (below the cap) would exceed it |
| Risk.RiskManager.ValidateTrade | scripts/utils/parameter_generator.py:61-81 | fails exactly on a zero account size; ratio = profit/abs(loss) (0 for no loss); risk percentage × account = abs(loss); approved iff percentage ≤ risk per trade and ratio > 0.5 |
| Risk.RiskManager.ApprovedMeansWithinBudget | scripts/utils/parameter_generator.py:72-77 | an approved trade risks at most the per-trade budget, has a nonzero loss and a profit above half of it |
| Risk.RiskManager.SizedPositionWithinRiskPercentage | scripts/utils/parameter_generator.py:42-81 | a position sized by PositionSize passes the risk-percentage half of the gate |
| Risk.SizeWithinBudget | scripts/utils/parameter_generator.py:52-59 | max(1, min(int(q), cap)) contracts stay within the budget and are the most that do |
| Risk.ScenarioPositionSize | scripts/utils/parameter_generator.py:42-59 | 10000 at 2% with 150 per contract gives 1 contract |
| Risk.ScenarioRejectedTrade | scripts/utils/parameter_generator.py:61-81 | a 300 loss against 100 profit has ratio 1/3 and is rejected |
| Trades.Ratio | scripts/utils/parameter_generator.py:488 | `x / y if y > 0 else 0` |
| OptionChain.Dtes | scripts/utils/parameter_generator.py:145 | the chain's DTE column in chain order |
| OptionChain.Closest | scripts/utils/parameter_generator.py:145-179 | None exactly for no DTEs; otherwise the nearest available DTE, the smaller on a tie |
| OptionChain.ClosestIgnoresOrder | scripts/utils/parameter_generator.py:145-179 | the chosen DTE depends only on the set of DTEs, not their order or repetition |
| OptionChain.OfType | scripts/utils/parameter_generator.py:225-226 | exactly the rows of the requested type |
| OptionChain.OfTypeAt | scripts/utils/parameter_generator.py:218-222 | exactly the rows of the requested type and DTE |
| OptionChain.FirstNearest | scripts/utils/parameter_generator.py:231-233 | the first row of minimal distance to the target |
| OptionChain.FindContract | scripts/utils/parameter_generator.py:204-267 | fails exactly when the chain has no row of the type; otherwise a row of that type, at the DTE when it exists, no farther from the target (delta or price) than any candidate |
| OptionChain.FindStrike | scripts/utils/parameter_generator.py:204-267 | fails exactly when the chain has no row of the type; otherwise the strike of a candidate row no farther from the target (delta or price) than any other candidate |
| OptionChain.FindContractFirstOnTies | scripts/utils/parameter_generator.py:231-233 | the chosen row is the first nearest candidate: every earlier candidate is strictly farther, as `nsmallest(1)` keeps the first of equals |
| OptionChain.FindStrikeFirstOnTies | scripts/utils/parameter_generator.py:231-235 | the chosen strike is that of the first nearest candidate |
| OptionChain.StrikeRoundTrip | scripts/utils/parameter_generator.py:237-267 | selecting by price at a strike a selector returned gives that strike back |
| OptionChain.Quote | scripts/utils/parameter_generator.py:284-291 | the first row in chain order with exactly that strike, type and DTE; "not found" exactly when none exists |
| OptionChain.Ask | scripts/utils/parameter_generator.py:270-293 | the ask of a row with that strike, type and DTE; fails exactly when Quote does |
| OptionChain.Bid | scripts/utils/parameter_generator.py:295-319 | the bid of a row with that strike, type and DTE; fails exactly when Quote does |
| OptionChain.ChosenStrikeIsQuotable | scripts/utils/parameter_generator.py:204-293 | a strike chosen at a DTE the chain lists for that type can always be priced |
| Strategies.ParseName | scripts/utils/parameter_generator.py:113-129 | parsing a label's name gives the label, and only that name parses to it |
| Strategies.AllStrategiesComplete | scripts/utils/parameter_generator.py:113-124 | there are exactly ten labels |
| ParameterGen.ClassifyTrendStrength | scripts/utils/parameter_generator.py:181-202 | VERY_STRONG and STRONG exactly under their rules, in that priority; WEAK exactly when ADX ≤ 20; strong trends have ADX > 25 |
| ParameterGen.TargetDte | scripts/utils/parameter_generator.py:147-176 | condors and butterflies 7 / 14 / 21 for IV rank above 70, above 50, else; long options 45 at IV below 30 in a very strong trend, 30 at IV below 40, else 21; verticals 30 exactly in a very strong trend, else 21; straddle, strangle, calendar and diagonal 30 |
| ParameterGen.TargetDteShortensWithIv | scripts/utils/parameter_generator.py:147-176 | a higher IV rank never lengthens the target |
| ParameterGen.SelectOptimalDte | scripts/utils/parameter_generator.py:131-179 | fails exactly on an empty chain; otherwise a listed DTE nearest the target |
| ParameterGen.Beyond | scripts/utils/parameter_generator.py:830-831 | exactly the DTEs beyond the bound |
| ParameterGen.NearFarDtes | scripts/utils/parameter_generator.py:826-831 | near is the DTE nearest 21; far is the DTE nearest 45 among those more than 14 days beyond near, or near + 30 when there is none |
| ParameterGen.LongOptionDelta | scripts/utils/parameter_generator.py:339-347 | delta 0.50/0.40/0.30 by IV rank, positive exactly for calls |
| ParameterGen.VerticalDeltas | scripts/utils/parameter_generator.py:445-452 | the long leg is deeper than the short leg; both signed by type |
| ParameterGen.CondorDeltas | scripts/utils/parameter_generator.py:682-693 | symmetric put/call deltas with the wings further out than the shorts |
| ParameterGen.UnlistedFarLeg | scripts/utils/parameter_generator.py:829-842 | a far expiry beyond every listed DTE cannot be quoted |
| ParameterGen.QuotableWhenListed | scripts/utils/parameter_generator.py:204-293 | at a listed DTE, the chosen strike has both an ask and a bid |
| ParameterGen.StraddleStrike | scripts/utils/parameter_generator.py:562-573 | exists exactly when the chain has calls and puts |
| ParameterGen.StraddleStrikeNearestMid | scripts/utils/parameter_generator.py:562-573 | the strike is that of a candidate call no farther from the midpoint of the 50-delta call and put strikes than any other |
| ParameterGen.StraddleStrikeListed | scripts/utils/parameter_generator.py:562-577 | with calls listed at the DTE, the straddle strike can be quoted as a call there |
| ParameterGen.ButterflyStrikes | scripts/utils/parameter_generator.py:749-768 | exist exactly when the chain has calls and puts; the 50-delta call strike as centre, and the put and call strikes nearest the wing targets below and above it |
| ParameterGen.ButterflyStrikesListed | scripts/utils/parameter_generator.py:749-777 | each butterfly strike can be quoted when its type is listed at the DTE |
| ParameterGen.ParameterGenerator.constructor | scripts/utils/parameter_generator.py:89-96 | uses the given risk manager, or a default 10000 / 2% / 10 one |
| ParameterGen.ParameterGenerator.LongOptionAt | scripts/utils/parameter_generator.py:353-375 | a coherent, correctly sized long option with cost = ask × 100 |
| ParameterGen.ParameterGenerator.VerticalAt | scripts/utils/parameter_generator.py:462-490 | a coherent, sized vertical; bull call exactly for calls; debit = (long ask − short bid) × 100 |
| ParameterGen.ParameterGenerator.StraddleAt | scripts/utils/parameter_generator.py:579-605 | a coherent, sized straddle costed at both asks |
| ParameterGen.ParameterGenerator.StrangleAt | scripts/utils/parameter_generator.py:638-666 | a coherent, sized strangle costed at both asks |
| ParameterGen.ParameterGenerator.CondorAt | scripts/utils/parameter_generator.py:707-739 | a coherent, sized condor; credit = short bids − wing asks |
| ParameterGen.ParameterGenerator.ButterflyAt | scripts/utils/parameter_generator.py:779-813 | a coherent, sized butterfly; credit = centre bids − wing asks |
| ParameterGen.ParameterGenerator.CalendarAt | scripts/utils/parameter_generator.py:844-867 | a coherent, sized calendar; debit = far ask − near bid |
| ParameterGen.ParameterGenerator.DiagonalAt | scripts/utils/parameter_generator.py:908-933 | a coherent, sized diagonal; debit = far ask − near bid |
| ParameterGen.ParameterGenerator.LongOptionQuotes | scripts/utils/parameter_generator.py:332-351 | EmptyChain on an empty chain; otherwise succeeds exactly when the type is listed at the chosen DTE, which is nearest the target; the strike is FindStrike at the IV-dependent delta, priced at its ask |
| ParameterGen.ParameterGenerator.LongOptionTrade | scripts/utils/parameter_generator.py:324-428 | fails exactly when the lookups fail; otherwise a coherent, sized long call/put on the looked-up leg |
| ParameterGen.ParameterGenerator.VerticalQuotes | scripts/utils/parameter_generator.py:438-460 | EmptyChain on an empty chain; otherwise succeeds exactly when the type is listed at the chosen DTE; long and short strikes are FindStrike at the two vertical deltas, priced at ask and bid |
| ParameterGen.ParameterGenerator.VerticalTrade | scripts/utils/parameter_generator.py:430-552 | fails exactly when the lookups fail; otherwise a coherent, sized bull call or bear put spread |
| ParameterGen.ParameterGenerator.StraddleQuotes | scripts/utils/parameter_generator.py:562-577 | EmptyChain on an empty chain; otherwise succeeds exactly when calls and puts are listed at the DTE and the put at the straddle strike is quoted; the strike is StraddleStrike, both legs at their asks |
| ParameterGen.ParameterGenerator.StraddleTrade | scripts/utils/parameter_generator.py:554-605 | fails exactly when the lookups fail; otherwise a coherent, sized straddle |
| ParameterGen.ParameterGenerator.StrangleQuotes | scripts/utils/parameter_generator.py:615-636 | EmptyChain on an empty chain; otherwise succeeds exactly when calls and puts are listed at the DTE; call and put strikes are FindStrike at ±0.35 (IV below 30) or ±0.25, at their asks |
| ParameterGen.ParameterGenerator.StrangleTrade | scripts/utils/parameter_generator.py:607-666 | fails exactly when the lookups fail; otherwise a coherent, sized strangle |
| ParameterGen.ParameterGenerator.CondorQuotes | scripts/utils/parameter_generator.py:676-705 | EmptyChain on an empty chain; otherwise succeeds exactly when calls and puts are listed at the DTE; the four strikes are FindStrike at the condor deltas, shorts at their bids and wings at their asks |
| ParameterGen.ParameterGenerator.CondorTrade | scripts/utils/parameter_generator.py:668-739 | fails exactly when the lookups fail; otherwise a coherent, sized iron condor |
| ParameterGen.ParameterGenerator.ButterflyQuotes | scripts/utils/parameter_generator.py:749-777 | EmptyChain on an empty chain; otherwise succeeds exactly when calls and puts are listed at the DTE and the centre put is quoted; strikes are ButterflyStrikes with 7% wings above IV 75, else 5% |
| ParameterGen.ParameterGenerator.ButterflyTrade | scripts/utils/parameter_generator.py:741-813 | fails exactly when the lookups fail; otherwise a coherent, sized iron butterfly |
| ParameterGen.ParameterGenerator.CalendarQuotes | scripts/utils/parameter_generator.py:823-842 | EmptyChain on an empty chain; fails without a far expiry; otherwise succeeds exactly when the 50-delta call strike is quoted at both expiries for the RSI-chosen type; near bid and far ask |
| ParameterGen.ParameterGenerator.CalendarTrade | scripts/utils/parameter_generator.py:815-867 | fails exactly when the lookups fail; otherwise a coherent, sized calendar |
| ParameterGen.ParameterGenerator.DiagonalQuotes | scripts/utils/parameter_generator.py:877-906 | EmptyChain on an empty chain; succeeds exactly when the RSI-chosen type is listed at both expiries; long strike is FindStrike at 0.50 delta far, short at 0.30 delta near |
| ParameterGen.ParameterGenerator.DiagonalTrade | scripts/utils/parameter_generator.py:869-933 | fails exactly when the lookups fail; otherwise a coherent, sized diagonal |
| ParameterGen.ParameterGenerator.Builder | scripts/utils/parameter_generator.py:113-124 | each label goes to its own builder; an empty chain fails |
| ParameterGen.ParameterGenerator.BuiltTradeIsSound | scripts/utils/parameter_generator.py:113-124 | a built trade carries the label, its shape, coherent figures and a sized position |
| ParameterGen.ParameterGenerator.Generate | scripts/utils/parameter_generator.py:98-129 | an unknown name is an error naming it; a known name gives exactly what its label's builder gives, a lookup failure wrapped; the trade carries the label, coherent and sized; an empty chain fails |
| ParameterGen.ParameterGenerator.GenerateKeepsName | scripts/utils/parameter_generator.py:98-129 | a generated trade carries the label it was asked for |
| ParameterGen.ParameterGenerator.SizedWithinBudget | scripts/utils/parameter_generator.py:42-59 | a generated position whose per-contract loss fits the budget loses at most the budget in total |
| ParameterGen.ScenarioBullCallSpread | scripts/utils/parameter_generator.py:460-490 | 100/110 for a 4.00 debit: max profit 600, max loss 400, breakeven 104 |
| Payoffs.LongOptionPayoff | scripts/utils/parameter_generator.py:354-375 | a long option loses at most its premium and breaks even at the reported breakeven |
| Payoffs.VerticalPayoff | scripts/utils/parameter_generator.py:460-490 | the vertical's expiry P&L lies between −max loss and max profit and is zero at the breakeven |
| Payoffs.VerticalMaxProfitReached | scripts/utils/parameter_generator.py:465 | beyond the short strike the vertical earns exactly its max profit |
| Payoffs.StraddlePayoff | scripts/utils/parameter_generator.py:583-605 | a straddle loses at most its premium and breaks even at both breakevens |
| Payoffs.StranglePayoff | scripts/utils/parameter_generator.py:642-666 | a strangle loses at most its premium and breaks even at both breakevens |
| Payoffs.CondorPayoff | scripts/utils/parameter_generator.py:705-739 | the condor's P&L lies between −max loss and max profit, with the full credit between the shorts |
| Payoffs.ButterflyPayoff | scripts/utils/parameter_generator.py:780-813 | the butterfly's P&L lies between −max loss and max profit, with the full credit at the centre |
| StrategySelector.Read | scripts/utils/strategy_selector.py:53-58 | each of the five signals is the feature when present, else its default 50 / 20 / 2 / 50 / 0 |
| StrategySelector.SelectStrategy | scripts/utils/strategy_selector.py:22-186 | the label of the first rule that applies, and the fallback when none does; each label also implies its rule's IV/RSI/ADX conditions; the diagonal exactly under its rule |
| StrategySelector.NoRuleMeansFallback | scripts/utils/strategy_selector.py:169-186 | with no rule applying, the fallback decides, and it is one of five labels |
| StrategySelector.FallbackByVolatility | scripts/utils/strategy_selector.py:169-186 | in the fallback, IV > 55 sells a condor and IV < 35 buys a call or put by RSI |
| StrategySelector.OversoldIsLongPut | scripts/utils/strategy_selector.py:105-114 | when no earlier rule applies, IV rank below 48 and RSI below 33 give a long put |
| StrategySelector.EveryStrategyReachable | scripts/utils/strategy_selector.py:22-186 | every one of the ten labels is produced for some day |
| StrategySelector.Snap | scripts/utils/strategy_selector.py:53-58 | a snapshot that reads as the given five signals |
| StrategySelector.EmptySnapshotIsCondor | scripts/utils/strategy_selector.py:53-186 | with no features the day is an iron condor |
| StrategySelector.ScenarioHighIvRanging | scripts/utils/strategy_selector.py:75-76 | IV 60, ADX 15 is an iron condor |
| StrategySelector.ScenarioLowIvUptrend | scripts/utils/strategy_selector.py:95-97 | IV 30, ADX 25, uptrend, RSI 60 is a long call |
| StrategySelector.DiagonalBeforeCondor | scripts/utils/strategy_selector.py:65-76 | a day meeting both the diagonal and condor rules is a diagonal |
| StrategySelector.BandsCoverAll | scripts/utils/strategy_selector.py:203-214 | every label has a band and every band a positive minimum |
| StrategySelector.Count | scripts/utils/strategy_selector.py:201 | the count is zero exactly for an absent label |
| StrategySelector.Pct | scripts/utils/strategy_selector.py:201-218 | a share in [0, 100], zero exactly for an absent label |
| StrategySelector.PctBounds | scripts/utils/strategy_selector.py:201-218 | c·100/n lies in [0, 100] and is zero exactly for c = 0 |
| StrategySelector.BandFailures | scripts/utils/strategy_selector.py:216-226 | no failure exactly when every band holds |
| StrategySelector.ValidateDistribution | scripts/utils/strategy_selector.py:189-238 | the loop reports exactly the failures, and valid iff there are none |
| StrategySelector.ValidIffAllInBand | scripts/utils/strategy_selector.py:189-238 | a training set passes exactly when every label's share lies in its band |
| StrategySelector.BandOf | scripts/utils/strategy_selector.py:203-214 | each label's band has the bounds MinPct/MaxPct name |
| LabelGrids.RowMajor2 | scripts/3_create_labels.py:95-132 | position n·a + b of a nested listing decodes to (a, b) |
| LabelGrids.RowMajor3 | scripts/3_create_labels.py:151-186 | position 9a + 3b + c decodes to (a, b, c) |
| LabelGrids.LongOptionGrid | scripts/3_create_labels.py:95-111 | exactly the first ten grid points in nesting order, all at DTE 7 or 14 |
| LabelGrids.CondorGrid | scripts/3_create_labels.py:43-68 | the first 20 grid points in nesting order that keep their wings strictly outside their shorts, as CondorKeptBefore lists them |
| LabelGrids.CondorKeptBefore | scripts/3_create_labels.py:50-66 | the kept condor points before a digit position: no more than the points visited, each with wings outside its shorts and DTE 14, 21 or 30 |
| LabelGrids.SpreadGrid | scripts/3_create_labels.py:71-92 | the first 15 grid points in nesting order whose legs differ, as SpreadKeptBefore lists them |
| LabelGrids.SpreadKeptBefore | scripts/3_create_labels.py:75-90 | the kept spread points before a digit position: no more than the points visited, each with distinct legs and DTE 14, 21 or 30 |
| LabelGrids.ButterflyGrid | scripts/3_create_labels.py:114-132 | all nine grid points in order, each with symmetric wings |
| LabelGrids.StraddleGrid | scripts/3_create_labels.py:135-148 | exactly the first ten grid points in order |
| LabelGrids.StrangleGrid | scripts/3_create_labels.py:151-167 | exactly the first fifteen grid points in order, DTE 14 or 21 |
| LabelGrids.CalendarGrid | scripts/3_create_labels.py:170-186 | exactly twelve points in order; far expiry after near |
| LabelGrids.DiagonalGrid | scripts/3_create_labels.py:189-208 | the first 15 grid points in nesting order with the long strike below the short, as DiagonalKeptBefore lists them |
| LabelGrids.DiagonalKeptBefore | scripts/3_create_labels.py:193-206 | the kept diagonal points before a digit position: no more than the points visited, each with far after near and the long strike below the short |
| LabelGrids.Take | scripts/3_create_labels.py:68 | a prefix of at most n points, the whole list when it is shorter |
| LabelScoring.TargetOf | scripts/3_create_labels.py:227-231 | the day's date and its IV rank, trend regime, ADX and RSI, with defaults 50 / 2 / 20 / 50 |
| LabelScoring.Matching | scripts/3_create_labels.py:234-248 | at most as many days as the table; with MatchingOne and MatchingConcat it is exactly the order-keeping filter |
| LabelScoring.MatchingMembers | scripts/3_create_labels.py:234-248 | a day is kept exactly when it is in the table and passes the filter |
| LabelScoring.MatchingOne | scripts/3_create_labels.py:234-248 | a single day is kept exactly when it passes the filter |
| LabelScoring.MatchingConcat | scripts/3_create_labels.py:234-248 | filtering two stretches of days gives the two filtered stretches one after the other, so the table's order is kept |
| LabelScoring.StrictWithinLoose | scripts/3_create_labels.py:234-248 | relaxing the filter never loses a day |
| LabelScoring.FindSimilarDays | scripts/3_create_labels.py:215-251 | a prefix, in table order, of the strict matches when there are at least n of them and of the relaxed matches otherwise; at most n earlier, loosely matching days; never fewer than the filter offers |
| LabelScoring.WinRateFactor | scripts/3_create_labels.py:440-444 | 1.2 above 70%, 0.8 below 55%, 1 between |
| LabelScoring.RiskAdjustedScore | scripts/3_create_labels.py:422-446 | −999 without stats; 0 for no loss; positive/negative exactly with the expected return |
| LabelScoring.ScoreMonotoneInReturn | scripts/3_create_labels.py:422-446 | a larger expected return never scores lower |
| LabelScoring.ScoreMonotoneInWinRate | scripts/3_create_labels.py:422-446 | for a profitable set, a higher win rate never scores lower |
| LabelScoring.Best | scripts/3_create_labels.py:545-566 | a chosen index is in range and has statistics; the kept score is its score and lies above −999 |
| LabelScoring.BestIsFirstMaximal | scripts/3_create_labels.py:545-566 | none exactly when no set scores above −999; otherwise the first set of maximal score |
| LabelScoring.SelectBest | scripts/3_create_labels.py:545-566 | the loop computes Best, index and score: none exactly when every set is missing or scores at most −999; otherwise the first set of maximal score, and its score |
| LabelScoring.CandidateGrid | scripts/3_create_labels.py:517-536 | the dispatch returns the strategy's own grid, as the grid generator of that strategy lists it |
| LabelScoring.GridSizes | scripts/3_create_labels.py:517-536 | 9 butterfly, 10 long-option and straddle, 12 calendar and 15 strangle sets; at most 20 condor and 15 spread or diagonal sets |
| LabelScoring.GridFits | scripts/3_create_labels.py:517-536 | every point of a strategy's grid has that strategy's shape |
| LabelScoring.Backtests | scripts/3_create_labels.py:550-553 | one backtest per grid point, on the strategy and the similar days |
| LabelScoring.DayLabelMeaning | scripts/3_create_labels.py:504-582 | a day has a label exactly with at least ten similar days and some set scoring above −999; the label then has the day's date, the rule's strategy, the first best grid point and its statistics, and 10 to 30 similar days |
| LabelScoring.LabelIsBestOfGrid | scripts/3_create_labels.py:550-563 | no point of the grid scores above the label's score |
| LabelScoring.DayLabelFits | scripts/3_create_labels.py:504-582 | a day's label has its date and rule strategy, a parameter set of that strategy's shape and 10 to 30 similar days |
| LabelScoring.LabelDay | scripts/3_create_labels.py:504-582 | exactly DayLabel of the day |
| LabelScoring.History | scripts/3_create_labels.py:234-239 | one similarity record per feature row |
| LabelScoring.Collect | scripts/3_create_labels.py:499-582 | the labels of days from the thirty-first up to n, at most n − 30 of them |
| LabelScoring.CollectStep | scripts/3_create_labels.py:582 | one more day appends its label, if it has one, at the end |
| LabelScoring.CollectPrefix | scripts/3_create_labels.py:500-582 | days after the first `n` do not change what those `n` days collect |
| LabelScoring.CollectedFromDays | scripts/3_create_labels.py:499-582 | every collected label is the label of some day after the first thirty |
| LabelScoring.LabelledDayIsKept | scripts/3_create_labels.py:499-582 | every labelled day after the first thirty contributes its label |
| LabelScoring.AddDay | scripts/3_create_labels.py:500-582 | one pass of the loop records the day's label (DayLabel against the whole history) and extends the collected labels by it |
| LabelScoring.CreateLabels | scripts/3_create_labels.py:453-582 | the record `days` holds DayLabel of every day from the thirty-first on; the labels are exactly those, in day order, skipping days without one |
| LabelScoring.CollectedLabelsFit | scripts/3_create_labels.py:499-582 | each collected label comes from a day after the first thirty, with its date and rule strategy, a fitting parameter set and 10 to 30 similar days |
| AdvancedFeatures.UnusualActivity | scripts/utils/advanced_features.py:225-230 | 1 exactly when volume exceeds twice the average, else 0 |
| AdvancedFeatures.UnusualActivityMonotone | scripts/utils/advanced_features.py:225-230 | more volume never clears the flag |
| AdvancedFeatures.Volume | scripts/utils/advanced_features.py:239-240 | non-negative for non-negative counts |
| AdvancedFeatures.OptionsFlowSentiment | scripts/utils/advanced_features.py:233-245 | 0 without volume; otherwise (calls − puts)/total, within [−1, 1] |
| AdvancedFeatures.FlowBounds | scripts/utils/advanced_features.py:241-245 | the quotient lies in [−1, 1] |
| AdvancedFeatures.SwappedVolume | scripts/utils/advanced_features.py:239-240 | swapping labels swaps the call and put volumes |
| AdvancedFeatures.FlowSentimentAntisymmetric | scripts/utils/advanced_features.py:233-245 | swapping calls and puts negates the sentiment |
| AdvancedFeatures.TrailingInRange | scripts/utils/advanced_features.py:305-318 | the length of the trailing run of prices inside the range |
| AdvancedFeatures.DaysInRange | scripts/utils/advanced_features.py:305-318 | that run, capped at 60 |
| AdvancedFeatures.TrailingRun | scripts/utils/advanced_features.py:380-398 | the length of the trailing run equal to a value |
| AdvancedFeatures.DaysSinceRegimeChange | scripts/utils/advanced_features.py:380-398 | 0 for fewer than two entries; otherwise the run of the latest regime, capped at 60 |
| AdvancedFeatures.BreakoutProbability | scripts/utils/advanced_features.py:321-342 | the formula as written, within [0, 1] |
| AdvancedFeatures.BlendMonotone | scripts/utils/advanced_features.py:335-342 | raising any factor never lowers the blend |
| AdvancedFeatures.BreakoutPeaksMidRange | scripts/utils/advanced_features.py:331-332 | as written, mid-range scores highest and the edges lowest |
| AdvancedFeatures.EdgeBreakoutProbability | scripts/utils/advanced_features.py:321-342 | the edge-rewarding estimate, within [0, 1] |
| AdvancedFeatures.EdgeBreakoutMonotone | scripts/utils/advanced_features.py:321-342 | moving toward an edge, or raising volatility or ADX, never lowers it |
| AdvancedFeatures.EdgeBreakoutAtEdges | scripts/utils/advanced_features.py:331-342 | an edge outscores the middle, and a saturated day scores 1 |
| AdvancedFeatures.CombinedState | scripts/utils/advanced_features.py:371-377 | in range 0..74 for valid regimes |
| AdvancedFeatures.CombinedStateDecodes | scripts/utils/advanced_features.py:371-377 | each regime is recovered from the state |
| AdvancedFeatures.CombinedStateInjective | scripts/utils/advanced_features.py:371-377 | different regime triples never share a state |
| FeatureExtractor.TrendRegime | scripts/utils/feature_extractor.py:700-709 | code 0..4; 4 exactly for a strong uptrend; 2 exactly for ADX < 20; ADX 20–25 gives 0 |
| FeatureExtractor.StrongDownOnlyWithoutDirection | scripts/utils/feature_extractor.py:700-709 | a trending market below its SMA50 is coded 1, and 0 is given exactly without a clear direction |
| FeatureExtractor.VolatilityRegime | scripts/utils/feature_extractor.py:714-723 | 0..4 by IV rank with cut points 25 / 40 / 60 / 75, each code exactly on its band |
| FeatureExtractor.VolumeRegime | scripts/utils/feature_extractor.py:728-733 | 0..2; 2 exactly above 1.5; 0 exactly at or below 0.8 |
| FeatureExtractor.RegimesMonotone | scripts/utils/feature_extractor.py:714-733 | higher IV rank or volume never lowers the regime |
| FeatureExtractor.RegimeClassification | scripts/utils/feature_extractor.py:691-745 | the three regimes from the features with their defaults; a combined state that decodes to them; days since change 5 |
| FeatureExtractor.EmptyFeaturesRegime | scripts/utils/feature_extractor.py:691-745 | with no features the regimes are (0, 2, 1), state 7 |
| FeatureExtractor.NaNKeys | scripts/utils/feature_extractor.py:163 | exactly the names whose value is NaN |
| FeatureExtractor.ValidateOutput | scripts/utils/feature_extractor.py:152-165 | missing names are reported first, all of them; then the NaN names; success exactly when complete and NaN-free |
| FeatureExtractor.FeatureArray | scripts/utils/feature_extractor.py:747-757 | succeeds exactly when every required name is present, with values in the required order; a failure names the first missing one in the required order |
| FeatureExtractor.ValidatedArrayIsComplete | scripts/utils/feature_extractor.py:152-165 | a validated dictionary gives a complete NaN-free array |
| FeatureEngineering.TrendOf | scripts/utils/feature_engineering.py:276-295 | strong up/down exactly by MACD and RSI when ADX > 25; RANGING exactly for ADX < 20; weak up/down by RSI between |
| FeatureEngineering.VolatilityOf | scripts/utils/feature_engineering.py:300-311 | EXTREME above 70, ELEVATED in (50, 70], NORMAL in (30, 50], LOW at or below 30, each exactly on its band |
| FeatureEngineering.VolumeOf | scripts/utils/feature_engineering.py:316-324 | HIGH exactly above 1.5, LOW exactly at or below 0.8 |
| FeatureEngineering.ClassifyMarketRegime | scripts/utils/feature_engineering.py:265-326 | the three named regimes from the features with defaults, with codes in range |
| FeatureEngineering.NameDeterminesCode | scripts/utils/feature_engineering.py:276-295 | readings with the same trend name have the same code |
| FeatureEngineering.TrendNameInjective | scripts/utils/feature_engineering.py:276-295 | distinct trends have distinct names |
| FeatureEngineering.VolatilityCodeMonotone | scripts/utils/feature_engineering.py:300-311 | higher IV rank never lowers the volatility code |
| Ranking.BestOutside | scripts/6_predict_strategy.py:106 | the index of a largest value not yet ranked, none exactly when all are ranked |
| Ranking.RankedAppend | scripts/6_predict_strategy.py:106 | appending the best unranked index keeps a ranking |
| Ranking.Extend | scripts/6_predict_strategy.py:106 | extends a ranking by up to k indices, covering everything when shorter |
| Ranking.TopK | scripts/6_predict_strategy.py:106-108 | distinct indices by non-increasing probability, at most k, all of them when fewer, led by an argmax |
| StrategyPrediction.NanToNum | scripts/6_predict_strategy.py:89-91 | NaN entries become 0, others are kept |
| StrategyPrediction.Classify | scripts/6_predict_strategy.py:94-108 | fails exactly on an out-of-range index; otherwise the class, its probability and the top three with non-increasing probabilities |
| StrategyPrediction.PredictStrategy | scripts/6_predict_strategy.py:86-108 | the classifier sees the row with NaN read as 0 and numbers kept; succeeds exactly when its indices are in range; the pick and its confidence |
| StrategyPrediction.NaNReadsAsZero | scripts/6_predict_strategy.py:89-91 | a NaN feature predicts exactly like a zero |
| StrategyPrediction.PickLeadsTopThree | scripts/6_predict_strategy.py:94-108 | a strictly most probable pick heads the top three |
| StrategyPrediction.DefaultParameters | scripts/6_predict_strategy.py:325-400 | per label: spread strikes at price×0.98 / ×1.02 snapped to 5 and 10 wide; condor and butterfly centred on the snapped price with their wing offsets; long call/put at price×1.02 / ×0.98, 2 contracts; straddle at the snapped price; strangle at ×1.05 / ×0.95; the calendar shape for every other label |
| Recommendation.Lower | agents/recommendation_agent.py:288 | lower-cases each character |
| Recommendation.MissingFirstCharNotContained | agents/recommendation_agent.py:288 | a text without a pattern's first character does not contain it |
| Recommendation.LowerLacks | agents/recommendation_agent.py:288 | the calendar and diagonal profit texts do not mention "unlimited" |
| Recommendation.PrefixContained | agents/recommendation_agent.py:288 | a text contains its own prefix |
| Recommendation.LossFigure | agents/recommendation_agent.py:284 | the position total when present, else the per-contract loss |
| Recommendation.ProfitFigure | agents/recommendation_agent.py:285 | the position total when present, else the per-contract entry |
| Recommendation.RecommendationAgent.constructor | agents/recommendation_agent.py:77-81 | a 10000 / 2% / 10 risk manager shared with the parameter generator |
| Recommendation.RecommendationAgent.PredictStrategy | agents/recommendation_agent.py:210-253 | a missing column is an error naming it; otherwise the classifier's pick and its top three as alternatives, with version and accuracy |
| Recommendation.RecommendationAgent.GenerateParameters | agents/recommendation_agent.py:256-297 | the market price, else the feature, else 236.80; generation errors pass through; success exactly when the risk gate succeeds |
| Recommendation.RecommendationAgent.RiskCheck | agents/recommendation_agent.py:284-293 | a text profit without "unlimited" is an error exactly with a nonzero loss; otherwise the gate fails only on a zero account; risk percentage from the absolute loss; a numeric profit sets the ratio; "unlimited" is judged at 3:1 |
| Recommendation.RecommendationAgent.PickLeadsAlternatives | agents/recommendation_agent.py:230-241 | a strictly most probable pick is the first alternative |
| Recommendation.RecommendationAgent.UnlimitedProfitGate | agents/recommendation_agent.py:284-293 | unlimited-profit trades are judged at 3:1, approved exactly on a nonzero loss within budget |
| Recommendation.RecommendationAgent.VariableProfitGate | agents/recommendation_agent.py:284-293 | calendar/diagonal profits are text: an error exactly with a nonzero loss, a rejection otherwise |
| Recommendation.RecommendationAgent.NumericProfitGate | agents/recommendation_agent.py:284-293 | numeric trades are judged on their position totals |
| Recommendation.Wrap | agents/recommendation_agent.py:293 | a risk-manager verdict or error, carried unchanged |
| Recommendation.VariableProfitText | agents/recommendation_agent.py:284-288 | calendar/diagonal profits are text without "unlimited", and their loss figure is the total |
| Recommendation.ThreeToOne | agents/recommendation_agent.py:288-289 | three times a nonzero loss divided by it is 3 |

## Left out

- Data loading is not modelled: files, S3, the network, the market-data download and model loading. The chain, features, history and classifier are inputs.
- The agent's tool wiring, its prompt and `format_recommendation` are not modelled. They are presentation only.
- Floating point is modelled as exact `real` arithmetic. Rounding error and NaN arithmetic are not modelled; NaN appears only as a feature value.
- Python's `round` is an abstract `round: real -> int`. Banker's rounding is not fixed.
- `str.lower` is modelled on ASCII letters only.
- The backtest that scores a parameter set draws random outcomes. It is a parameter of `LabelScoring.CreateLabels` that receives the strategy, the parameter set and the similar days; the per-set statistics are an input of `LabelScoring.SelectBest`.
- The option-chain columns the core never reads are left out: volume, open interest, IV, gamma, theta and vega.
- The constant descriptive strings in each trade are left out: action notes, bias and the empty warnings list.
- The `current_price` argument of `generate` is accepted and unused, as in the source.
- Ranking.TopK: numpy's `argsort` tie order is not fixed. The ranking is specified relationally, and the index chosen among equal probabilities may differ from numpy's.
- Payoffs: the payoff lemmas assume the leg order the builders aim for. Their deltas produce that order, but a chain whose deltas are not monotone in strike can break it, and that case is not covered.
- LabelScoring.CreateLabels: history columns that are absent from a row are read with the same defaults as the day being labelled.
- FeatureExtractor.RegimeClassification: `days_since_regime_change` is fixed at 5 by the extractor. The history-based counter is AdvancedFeatures.DaysSinceRegimeChange.
- The default 84-name feature list of `feature_extractor.py` is not modelled; the required names are a parameter of the operations that use them.
- The agent's PredictStrategy reads its features as a dictionary with NaN values, while GenerateParameters reads them as a numeric snapshot. When several columns are missing, pandas reports them all; the model reports one of them.
- StrategyPrediction.DefaultParameters ignores its IV-rank argument, as the source does. The label-to-shape map is stated in `DefaultsForEveryLabel`, which Dafny proves unaided.
- The remaining scripts are not part of this model: data collection, feature-table construction, training, leakage repair, the raw-data predictor, the Greeks and IV-rank recalculation, the Streamlit app and the tests.

## Findings

| source | as written | input that shows it | evidently intended | confidence | as-written member | corrected member |
|---|---|---|---|---|---|---|
| scripts/utils/advanced_features.py:331-332 | edge factor `1 - abs(position - 0.5) * 2`, largest in mid-range although the comment says edges raise breakout odds | position 0.5 vs 0.0 with volatility = ADX = 0: 0.4 vs 0.0 | factor `abs(position - 0.5) * 2`, largest at the edges | not executed | AdvancedFeatures.BreakoutPeaksMidRange | AdvancedFeatures.EdgeBreakoutMonotone |
