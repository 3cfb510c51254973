# TrojanBot token screening, ranking and order building, in Dafny

This project models the part of TrojanBot that does the token work:

- it standardizes the token records that pump.fun and DexScreener return;
- it scores each token with a placeholder "AI" upside score;
- it screens out suspicious and risky tokens;
- it ranks the remaining tokens;
- it builds the buy and sell payloads sent to the Telegram trading bots.

The repository holds several copies of this logic. Each copy is modelled with its own branches, defaults and exceptions:

- **Package** (`TrojanBot/utils/distribution.py` and `TrojanBot/utils/data_formater.py`).
  The `Distribution` class checks its three required URLs.
  `dist` standardizes every fetched token to an eleven-field record.
  It then annotates each record in place with `upside_score` and `rug_score`.
  There is no filter and no sort. The package scorer reads the nested DexScreener windows
  (`volume.h24`, `price_change.h1`, `liquidity.usd`) and rounds the score to two decimals.
- **Report scripts** (`scripts/rugchecker.py`, `scripts/twitterscore.py`).
  They standardize both listings to flat records and keep the tokens on chain `solana` or `sol`.
  `rugchecker` then drops suspicious tokens and applies the RugCheck threshold of 50.
  Both scripts score the unrounded weighted sum and sort the result rows with a stable descending sort.
- **Trading scripts** (`scripts/tgbotsinteg.py`, `scripts/method1.py`).
  They look up a bot's endpoint in a fixed table and build the payloads with default fee, amount and slippage.
  They sell once the profit reaches the target.

Modules, one per source file or shared component:

| module | file | contents |
|---|---|---|
| `Json` | json.dfy | decoded JSON values, `dict.get`, truthiness, `float()`, ASCII `str.lower()`, Python exceptions as `Result` |
| `Scoring` | scoring.dfy | the weighted sum, `round(x, 2)`, the flat feature extraction of the scripts |
| `Suspicion` | suspicion.dfy | `is_token_suspicious` (rugchecker.py and method1.py have identical copies) |
| `Sorting` | sorting.dfy | `list.sort(key=..., reverse=True)`: a reference stable sort and its proofs |
| `Pipeline` | pipeline.dfy | the shared loops: standardize each token, update each token in place, Solana filter, collect the rows of a report loop |
| `DataFormater` | data_formater.dfy | `TrojanBot/utils/data_formater.py` |
| `Distribution` | distribution.dfy | `TrojanBot/utils/distribution.py`: the class, with fields and methods |
| `RugChecker` | rugchecker.dfy | `scripts/rugchecker.py` |
| `TwitterScore` | twitterscore.dfy | `scripts/twitterscore.py` |
| `Orders` | orders.dfy | the order builders and profit taking of `scripts/tgbotsinteg.py` and `scripts/method1.py` (identical copies) |

Modelling choices:

- A record is `map<string, Value>`. `Value` is a decoded JSON value; Python's int and float are both `Num(real)`.
- A Python exception is the `Err` of a `Result`. The first exception in Python's evaluation order wins.
- The HTTP calls become parameters: the provider listings as sequences, and the RugCheck, TwitterScore and price lookups as functions.
- The environment becomes a `map<string, string>`.
- Each `for` and `while` loop of the source is a `method` with a `while` loop. It is proved equal to a specification function, and the lemmas are stated about that function.
- The list comprehension that keeps the Solana tokens (rugchecker.py:207, twitterscore.py:148-151) has no loop of its own: it is the function `Pipeline.SolanaOnly`.
- `Distribution` is a class. `enviroments` fills its `enviroment` map field one entry at a time. `main_trading` updates the caller's configuration object in place.

Behaviour of the code that its comments and names do not make obvious:

- Standardization can fail. A non-string chain raises AttributeError at `.lower()`, and a non-numeric pump.fun volume, price change or liquidity raises at `float()`.
- The package scorer reads only nested feature fields, so it cannot score the flat records that the package standardizer builds for pump.fun tokens (see Findings).
- In `dist` the Solana filter and the sort are commented out (distribution.py:65-72 and 81-82), so the package annotates every fetched token and keeps fetch order.

## Model

| member | source | states |
|---|---|---|
| `Json.ToFloat` | TrojanBot/utils/distribution.py:105-107 | `float(v)` succeeds exactly on numbers and booleans, returning their value; a string raises ValueError, anything else TypeError |
| `Json.LowerSpec` | TrojanBot/utils/distribution.py:102 | the lowered chain has the same length, maps every character through ASCII lower-casing and contains no upper-case letter |
| `Json.LowerIdempotent` | scripts/rugchecker.py:68-79 | lower-casing an already lowered chain changes nothing |
| `Json.LowerValue` | TrojanBot/utils/distribution.py:117 | `.lower()` succeeds exactly on a string and returns that string lower-cased (`Lower`), of the same length; any other value raises AttributeError |
| `Scoring.DummyAiScore` | scripts/rugchecker.py:101-108 | the unrounded score is `0.6·price_change + 0.3·volume + 0.1·liquidity` of features read as `[volume, price_change, liquidity]`; it raises TypeError exactly when one feature is not a number |
| `Scoring.AnalyzeFlatToken` | scripts/rugchecker.py:91-115 | the scripts' `analyze_token` is the weighted sum of the flat fields with 0 for a missing one; it succeeds exactly when the present fields are numbers, and `{}` scores 0 |
| `Scoring.Round2Nearest` | TrojanBot/utils/data_formater.py:34 | `round(x, 2)` is within half a hundredth of `x` and no two-decimal value is closer |
| `Scoring.Round2Idempotent` | TrojanBot/utils/data_formater.py:34 | rounding a rounded score again returns it unchanged |
| `Scoring.Round2HalfEven` | TrojanBot/utils/data_formater.py:34 | on an exact tie between two hundredths the even one is chosen |
| `Suspicion.IsTokenSuspicious` | scripts/rugchecker.py:166-190 | on numeric fields the result is `(l>0 ∧ v/l>1000) ∨ abs(pc)>200 ∨ (l<1 ∧ v>1000)`; the ratio is formed only when `l>0`; it raises TypeError only on a non-numeric field the rules reach |
| `Suspicion.RatioRuleWithoutDivision` | scripts/method1.py:41-43 | for positive liquidity the ratio rule is `volume > 1000·liquidity` |
| `Suspicion.NotSuspiciousBounds` | scripts/method1.py:31-55 | a token that passes has its price change within ±200, volume at most 1000×liquidity when liquidity is positive, and volume at most 1000 when liquidity is below 1 |
| `Suspicion.SuspicionExamples` | scripts/rugchecker.py:171-190 | liquidity 1 and volume 2000 is flagged; liquidity 1000 and volume 2000 is not; price change −250 is flagged; a string liquidity raises TypeError |
| `Sorting.SortDescSorted` | scripts/rugchecker.py:247 | the sorted rows have non-increasing upside scores |
| `Sorting.SortDescPermutation` | scripts/rugchecker.py:247 | sorting permutes the rows (equal multisets) |
| `Sorting.SortDescStable` | scripts/twitterscore.py:172 | rows with equal scores keep their input order |
| `Sorting.StableSortDescending` | scripts/rugchecker.py:246-247 | the in-place sort yields the reference sort: ordered, a permutation and stable |
| `Sorting.TiesKeepInputOrder` | scripts/twitterscore.py:171-172 | scores 5, 5, 3 for A, B, C rank as A, B, C, wherever C starts |
| `Pipeline.MapAll` | scripts/rugchecker.py:199-204 | standardizing a batch gives one record per token in input order, or the exception of the first token that raises |
| `Pipeline.MapEach` | scripts/twitterscore.py:140-145 | the append loop computes `MapAll` |
| `Pipeline.UpdateEach` | TrojanBot/utils/distribution.py:75-79 | the loop that rewrites each record in place computes `MapAll` |
| `Pipeline.SolanaOnly` | scripts/twitterscore.py:148-151 | the filter keeps every token on chain `solana` or `sol` with its multiplicity, and nothing else |
| `Pipeline.SolanaOnlyAppend` | scripts/rugchecker.py:207 | the comprehension keeps input order: filtering a concatenation is the concatenation of the filtered parts |
| `Pipeline.SolanaOnlySingleton` | scripts/rugchecker.py:207 | one token is kept exactly when its chain is `solana` or `sol` |
| `Pipeline.MapAllAppend` | scripts/rugchecker.py:199-204 | standardizing `pump_tokens + dexscreener_tokens` gives the pump.fun records followed by the DexScreener records |
| `Pipeline.CollectAll` | scripts/rugchecker.py:210-244 | the loop succeeds exactly when no token's step raises, else it gives the first exception; every row it returns is the row of some token, and every token's row is among them |
| `Pipeline.CollectAllAppend` | scripts/rugchecker.py:210-244 | the loop appends in input order: the rows of a concatenation are the rows of the first part followed by those of the second |
| `Pipeline.CollectAllSingleton` | scripts/rugchecker.py:210-244 | one token gives its row, no row when the step skips it (`continue`), or the step's exception |
| `Pipeline.CollectEach` | scripts/rugchecker.py:210-215 | the loop with `continue` computes `CollectAll` |
| `Pipeline.RankedCollected` | scripts/rugchecker.py:237-247 | sorting the collected rows gives an ordered, stable permutation that contains each produced row and nothing else |
| `DataFormater.ExtractFeatures` | TrojanBot/utils/data_formater.py:2-21 | the package extraction returns `[volume.h24, price_change.h1, liquidity.usd]` exactly when all three fields are dicts or missing, and None otherwise |
| `DataFormater.ExtractFeaturesDefaults` | TrojanBot/utils/data_formater.py:8-17 | missing fields and empty windows give the features `[0, 0, 0]` |
| `DataFormater.DummyAiScore` | TrojanBot/utils/data_formater.py:24-34 | the package score is the rounded weighted sum; a None from extraction or a non-numeric feature raises TypeError |
| `DataFormater.AnalyzeToken` | TrojanBot/utils/data_formater.py:37-44 | `analyze_token` succeeds exactly when the three feature fields are dicts whose windows hold numbers, and then returns the weighted sum of the extracted features rounded to two decimals; otherwise it raises TypeError, in particular on any record whose features are not all dicts |
| `DataFormater.AnalyzeEmptyToken` | TrojanBot/utils/data_formater.py:37-44 | `{}` scores 0 |
| `DataFormater.DummyAiScoreRounded` | TrojanBot/utils/data_formater.py:34 | a package score is already a two-decimal value |
| `DataFormater.DummyAiScoreNearSum` | TrojanBot/utils/data_formater.py:32-34 | a package score is within 0.005 of the unrounded sum |
| `DataFormater.AnalyzeTokenRejectsFlatFields` | TrojanBot/utils/data_formater.py:15-21 | a flat number in any feature field makes `analyze_token` raise TypeError |
| `DataFormater.StandardizeToken` | TrojanBot/utils/data_formater.py:47-73 | an unknown source yields `{}`; a known source yields exactly six fields with the chain lower-cased (from `chain` or `chainId`); it fails exactly on a non-string chain or a non-numeric pump.fun number |
| `DataFormater.PumpFunDefaults` | TrojanBot/utils/data_formater.py:52-61 | a bare pump.fun record standardizes to `Unknown`, `N/A`, empty chain and zero features |
| `DataFormater.DexScreenerPassThrough` | TrojanBot/utils/data_formater.py:62-71 | DexScreener windows pass through unchanged, `{}` when absent, and the chain comes from `chainId` |
| `DataFormater.PumpFunRecordsCannotBeScored` | TrojanBot/utils/data_formater.py:54-61 | every standardized pump.fun record makes `analyze_token` raise |
| `DataFormater.AnalyzeTokenEitherShape` | TrojanBot/utils/data_formater.py:2-44 | the corrected scorer agrees with `analyze_token` wherever that returns, and scores a flat record by the rounded weighted sum of its numbers |
| `DataFormater.PumpFunRecordsScoredEitherShape` | TrojanBot/utils/data_formater.py:52-61 | every standardized pump.fun record gets a score under the corrected scorer |
| `Distribution.FirstMissing` | TrojanBot/utils/distribution.py:43-47 | the index of the first required variable that is unset or empty; all earlier ones are set |
| `Distribution.Loaded` | TrojanBot/utils/distribution.py:43-48 | the stored entries map each checked variable to its value |
| `Distribution.StandardizeToken` | TrojanBot/utils/distribution.py:89-125 | an unknown source yields `{}`; pump.fun fails exactly on a non-string chain or a non-numeric number; DexScreener fails exactly on a non-string `chainId` |
| `Distribution.PumpFunStandardized` | TrojanBot/utils/distribution.py:94-108 | a pump.fun record has exactly the eleven fields, the lower-cased chain, the address or `N/A`, and its numbers as flat floats |
| `Distribution.DexScreenerStandardized` | TrojanBot/utils/distribution.py:109-123 | a DexScreener record has the eleven fields; the address comes from `tokenAddress` and the chain from `chainId` lower-cased; the windows pass through, `{}` when absent |
| `Distribution.PumpFunDefaults` | TrojanBot/utils/distribution.py:96-108 | a bare pump.fun record gets `Unknown`, `img.png`, `N/A` ×3, price and market cap 0, and zero features |
| `Distribution.SixFieldsAreARestriction` | TrojanBot/utils/data_formater.py:47-73 | the six-field standardizer fails on the same records as the class's, and its fields agree with the eleven |
| `Distribution.Annotated` | TrojanBot/utils/distribution.py:76-79 | annotation adds exactly `upside_score` and `rug_score` to the record's keys |
| `Distribution.AnnotatedKeepsOtherFields` | TrojanBot/utils/distribution.py:75-79 | annotation leaves every other field unchanged |
| `Distribution.Annotate` | TrojanBot/utils/distribution.py:75-79 | one pass succeeds exactly when `analyze_token` does; it stores that score and the lookup of `address` |
| `Distribution.DistributedOnePerToken` | TrojanBot/utils/distribution.py:50-87 | `dist` returns one record per fetched token, pump.fun first, in fetch order; the i-th is the i-th token standardized and annotated |
| `Distribution.DistributedAnnotated` | TrojanBot/utils/distribution.py:75-79 | every returned record carries a numeric `upside_score` and a `rug_score` |
| `Distribution.MissingAddressLooksUpNA` | TrojanBot/utils/distribution.py:100 | a token without an address gets the address `N/A` from both providers' standardizers, so a successful annotation asks RugCheck about `N/A`, never None; as written only DexScreener records reach that lookup, and with the scorer that reads both shapes every pump.fun record reaches it too |
| `Distribution.PumpFunTokenMakesDistRaise` | TrojanBot/utils/distribution.py:76 | one pump.fun token in the fetched batch makes `dist` raise |
| `Distribution.AnnotateEitherShape` | TrojanBot/utils/distribution.py:75-79 | the corrected pass succeeds exactly when the corrected scorer does, and stores its score |
| `Distribution.PumpFunAnnotatedEitherShape` | TrojanBot/utils/distribution.py:103-107 | with the corrected scorer, every standardized pump.fun token is annotated with the rounded weighted sum of its raw numbers |
| `Distribution.DistributedEitherShapeAgrees` | TrojanBot/utils/distribution.py:50-87 | the corrected pipeline returns the same records wherever `dist` returns |
| `Distribution.Distribution.constructor` | TrojanBot/utils/distribution.py:16-20 | a new instance has an empty environment and empty lists |
| `Distribution.Distribution.Enviroments` | TrojanBot/utils/distribution.py:26-48 | checks `DEX_API_URL`, `PUMPFUN_URL`, `RUGCHECK_API_URL` in order; raises ValueError naming the first unset or empty one; the variables checked before it stay stored; on success all three are stored |
| `Distribution.Distribution.LoadVars` | TrojanBot/utils/distribution.py:43-48 | the checking loop over any list of names, with the same contract |
| `Distribution.Distribution.Dist` | TrojanBot/utils/distribution.py:50-87 | the method computes `Distributed` over its stored URLs |
| `Distribution.NewDistribution` | TrojanBot/utils/distribution.py:16-24 | construction succeeds exactly when all three variables are set, otherwise raises the ValueError of the first missing one |
| `Distribution.EmptyVariableRejected` | TrojanBot/utils/distribution.py:44-47 | an empty `PUMPFUN_URL` after a set `DEX_API_URL` is the one reported |
| `RugChecker.StandardizeToken` | scripts/rugchecker.py:58-87 | an unknown source yields `{}`; both providers fail exactly on a non-string chain or a non-numeric number, and a non-string chain raises AttributeError |
| `RugChecker.StandardizedKeys` | scripts/rugchecker.py:64-87 | a standardized record has exactly the eight fields |
| `RugChecker.StandardizedValues` | scripts/rugchecker.py:68-82 | the chain is the provider's `chain` lower-cased and the features are its numbers |
| `RugChecker.StandardizedIdentity` | scripts/rugchecker.py:66-84 | name, symbol and contract come from `name`/`symbol`/`contract_address` for pump.fun and from `pairName`/`baseTokenSymbol`/`contractAddress` for DexScreener |
| `RugChecker.StandardizedChainLower` | scripts/rugchecker.py:68-79 | the stored chain is already lower case |
| `RugChecker.SolanaRecordsAreFlat` | scripts/rugchecker.py:207 | a record on Solana came from a known provider and has numeric features, so an unknown source's `{}` never passes |
| `RugChecker.RugGate` | scripts/rugchecker.py:217-226 | without a contract: `N/A` and no lookup; with one: kept only when the score is not None and at least 50; a non-numeric score raises TypeError |
| `RugChecker.Row` | scripts/rugchecker.py:237-244 | a result row has exactly `name`, `symbol`, `upside_score`, `twitter_handle`, `twitter_info`, `rug_score` |
| `RugChecker.Screen` | scripts/rugchecker.py:211-244 | a kept token was not suspicious and passed the gate, and its row carries the gate's rug score |
| `RugChecker.ScreenScore` | scripts/rugchecker.py:228-229 | a kept row's upside score is the weighted sum of the token's own numbers |
| `RugChecker.ScreenDecision` | scripts/rugchecker.py:213-226 | a flat token is kept exactly when it is not suspicious and passes the gate, and raises exactly when it is not suspicious and the gate raises |
| `RugChecker.NoContractSkipsRugCheck` | scripts/rugchecker.py:225-226 | without a contract the lookup is never consulted and the rug score is `N/A` |
| `RugChecker.NoHandleSkipsTwitter` | scripts/rugchecker.py:232-235 | without a handle Twitter is never consulted and the summary is `{}` |
| `RugChecker.MainWorkflow` | scripts/rugchecker.py:194-247 | `main` computes `Report`: standardize, Solana filter, screening loop, stable sort |
| `RugChecker.SolanaTokensAreFlat` | scripts/rugchecker.py:199-207 | every Solana token of the standardized batch has numeric features |
| `RugChecker.ScreenRaises` | scripts/rugchecker.py:221 | on a flat token the loop raises only on a contract whose score is neither None nor a number |
| `RugChecker.OnlyRugScoresRaise` | scripts/rugchecker.py:210-229 | once standardization succeeds, the script can fail only on a rug score that cannot be compared with 50 |
| `RugChecker.ReportRanked` | scripts/rugchecker.py:247 | the report is sorted by upside score, is stable and permutes the loop's rows, and has no more rows than there are fetched tokens |
| `RugChecker.ScreenedAppend` | scripts/rugchecker.py:199-244 | the loop's rows come in fetch order: the rows of two consecutive runs of fetched tokens are the first run's rows followed by the second's |
| `RugChecker.ScreenedOne` | scripts/rugchecker.py:199-244 | one fetched token gives at most one row, and only if its standardized record is on Solana; that row is the one the screening step makes |
| `RugChecker.PumpFunRowsFirst` | scripts/rugchecker.py:199-247 | among rows with equal upside scores, pump.fun rows precede DexScreener rows, each in fetch order |
| `RugChecker.ReportSound` | scripts/rugchecker.py:210-247 | every reported row is the row of a Solana token the screen kept |
| `RugChecker.ReportComplete` | scripts/rugchecker.py:210-244 | every Solana token the screen keeps has its row in the report |
| `RugChecker.ReportRowKeys` | scripts/rugchecker.py:237-244 | every reported row has exactly the six keys |
| `RugChecker.StandardizeExample` | scripts/rugchecker.py:64-74 | pump.fun `{chain: "Solana", volume 100, priceChange 10, liquidity 50}` standardizes with chain `solana` |
| `RugChecker.ScreenExample` | scripts/rugchecker.py:211-244 | that token is kept with upside score 41, rug score `N/A` and an empty Twitter summary |
| `TwitterScore.StandardizeToken` | scripts/twitterscore.py:53-79 | an unknown source yields `{}`; both providers fail exactly on a non-string chain or a non-numeric number |
| `TwitterScore.StandardizedFlat` | scripts/twitterscore.py:58-77 | a standardized record has the seven fields, the lower-cased chain and numeric features |
| `TwitterScore.SameAsRugCheckerWithoutContract` | scripts/twitterscore.py:58-79 | the standardizer is rugchecker's without `contract`: same failures, same fields otherwise |
| `TwitterScore.SolanaRecordsAreFlat` | scripts/twitterscore.py:148-151 | only known providers' records are on Solana, and they are flat |
| `TwitterScore.Row` | scripts/twitterscore.py:163-169 | a row has exactly `name`, `symbol`, `upside_score`, `twitter_handle`, `twitter_info` |
| `TwitterScore.Analyze` | scripts/twitterscore.py:156-169 | one pass succeeds exactly on a flat token, and its row carries the unrounded weighted sum |
| `TwitterScore.MainWorkflow` | scripts/twitterscore.py:134-172 | `main` computes `Report`: standardize, Solana filter, analysis loop, stable sort |
| `TwitterScore.SolanaTokensAreFlat` | scripts/twitterscore.py:140-151 | every Solana token of the standardized batch has numeric features |
| `TwitterScore.ReportAfterStandardization` | scripts/twitterscore.py:154-169 | once standardization succeeds the report always exists: no suspicion or rug filter, and the scorer never raises |
| `TwitterScore.AnalyzedOnePerSolanaToken` | scripts/twitterscore.py:155-169 | exactly one row per Solana token, in order, with its score |
| `TwitterScore.ReportRanked` | scripts/twitterscore.py:171-172 | the report is sorted, stable, a permutation of the rows, with one row per Solana token |
| `TwitterScore.AnalyzedAppend` | scripts/twitterscore.py:140-169 | the loop's rows come in fetch order: the rows of two consecutive runs of fetched tokens are the first run's rows followed by the second's |
| `TwitterScore.PumpFunRowsFirst` | scripts/twitterscore.py:140-172 | among rows with equal upside scores, pump.fun rows precede DexScreener rows, each in fetch order |
| `TwitterScore.NoHandleSkipsTwitter` | scripts/twitterscore.py:159-162 | without a handle Twitter is never consulted and the summary is `{}` |
| `Orders.BotUrl` | scripts/tgbotsinteg.py:50-53 | a known bot name gives its endpoint and any other hashable name None; a list or dict raises TypeError |
| `Orders.BotTable` | scripts/method1.py:17-21 | the table holds exactly GmGn, Trojan and BananaGun, all with non-empty URLs |
| `Orders.BuildBuyOrder` | scripts/tgbotsinteg.py:43-65 | an unknown bot gives None and no order; a known one gives a `buy` order to its endpoint with exactly the five payload keys |
| `Orders.BuildSellOrder` | scripts/tgbotsinteg.py:68-88 | the same for `sell`, with `sell_amount` in place of `buy_amount` |
| `Orders.BuyDefaults` | scripts/tgbotsinteg.py:56-63 | an empty configuration gives fee 10, amount 1000, slippage 1 and token None |
| `Orders.BuyAmountFallback` | scripts/tgbotsinteg.py:59 | `buy_amount` is the configured one, else 1000, whatever else is configured |
| `Orders.SellAmountFallback` | scripts/tgbotsinteg.py:83 | `sell_amount` falls back to `buy_amount`, then to 1000 |
| `Orders.BuyAndSellAgree` | scripts/method1.py:133-158 | buy and sell orders of one configuration share endpoint, fee, slippage and token, and the sell amount equals the buy amount unless one is configured |
| `Orders.UnknownBotPlacesNothing` | scripts/method1.py:128-151 | an unknown bot builds neither order |
| `Orders.ProfitReached` | scripts/tgbotsinteg.py:116-118 | the check raises ZeroDivisionError for a zero initial price and TypeError for a non-numeric target |
| `Orders.ProfitThreshold` | scripts/tgbotsinteg.py:116-118 | for a positive initial price, the sale fires exactly when `current >= initial·(1 + target/100)` |
| `Orders.DefaultTargetIsFifteenPercent` | scripts/tgbotsinteg.py:112 | without a configured target, a 15% rise sells and less does not |
| `Orders.FirstProfit` | scripts/tgbotsinteg.py:114-122 | the first observed price reaching the target, all earlier ones not; None when none does; an exception only from the first check, since whether a check raises does not depend on the price |
| `Orders.MonitorProfitAndSell` | scripts/tgbotsinteg.py:104-123 | the polling loop stops at the first price that reaches the target and builds the sell order |
| `Orders.WithToken` | scripts/tgbotsinteg.py:134 | the token is set and every other configuration entry is kept |
| `Orders.BotName` | scripts/tgbotsinteg.py:136 | the bot defaults to GmGn |
| `Orders.MainTrading` | scripts/tgbotsinteg.py:127-148 | the configuration object gains the token in place, then the run buys and monitors with it |
| `Orders.TradeOrdersCarryToken` | scripts/tgbotsinteg.py:134-148 | both orders of a run carry the token it was started with |
| `Orders.ExampleBuy` | scripts/tgbotsinteg.py:153-164 | the script's example stores token SOL and buys 1500 of it via GmGn with fee 12 and slippage 1.5 |
| `Orders.ExampleProfit` | scripts/tgbotsinteg.py:158 | with the example's 20% target, the buying price does not sell and a price 25% above it does |

## Left out

- HTTP calls are parameters of the model:
  - the pump.fun and DexScreener fetchers, including `fetch_token_pair_details` and its enrichment, are given as listings;
  - `fetch_rugcheck_score`, `fetch_twitter_info`, `place_order` and `get_current_price` are given as lookups;
  - their timeouts, headers and error logging are left out.
- The package's `fetch_rugcheck_score` returns a `(score, risks)` tuple; `Dist` receives only the score.
- `analyze_risk` has no `return`, so it always returns None; nothing observable is left to model.
- The lookup's failure path returns a bare None (rugcheck_service.py:25). Unpacking it at distribution.py:77 would raise TypeError. This path is not modelled.
- `load_dotenv` and `os.getenv` are left out: the environment is a map parameter.
- `setup_logging`, logging calls and all printing, including the scripts' result display, are left out.
- `Json.ToFloat`: every string raises ValueError. Python's `float()` also parses numeric strings such as `"1.5"`; that parsing is not modelled.
- `Json.Lower`: only ASCII letters are lower-cased; Unicode case mapping is left out.
- Numbers are exact reals, not binary floats. `Scoring.Round2` is half-even rounding of the exact real, so a float whose binary value lies just off a tie may round differently in Python. Likewise `Orders.ProfitReached` compares the exact gain with the target: a price exactly on the threshold, such as 1.2 over 1.0 for a 20% target, sells in the model, while Python's float arithmetic gives a gain of 19.999999999999996 and does not sell.
- `Orders.MonitorProfitAndSell`: the `while True` loop reads a finite list of prices in place of `random.uniform`. When the list runs out the model reports `Waiting`. `time.sleep` is left out.
- `Orders.MainTrading`: the initial price read after buying is a parameter.
- The profit monitor and entry point of scripts/method1.py (from line 173) are not modelled. Its order builders, bot table and suspicion filter are the ones modelled here.
- `Distribution.Distribution.Dist` reads `address` before writing `upside_score`. Both are the same record apart from that key, so the value read is the same.
- The Flask dashboard (server.py), the Telegram bot, the SQLAlchemy models and `init_db`, the Solana wallet helpers and the joblib model of scripts/errorhandling.py are not part of this model.

## Findings

| source | as written | input that shows it | evidently intended | confidence | as-written member | corrected member |
|---|---|---|---|---|---|---|
| TrojanBot/utils/data_formater.py:15-21 | `extract_features` calls `.get` on each feature field, but `standardize_token` stores pump.fun features as flat floats. Extraction swallows the AttributeError and returns None, and `dummy_ai_score` then raises TypeError unpacking it, so `dist` raises whenever the batch holds a pump.fun token | a fetched pump.fun record `{"source": "pump.fun"}`: volume standardizes to `0.0` and `analyze_token` raises | score a flat field by its number and a nested one by its window | high (not executed) | `Distribution.PumpFunTokenMakesDistRaise` | `Distribution.PumpFunAnnotatedEitherShape` |
