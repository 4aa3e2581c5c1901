# Solana trading bots: a Dafny model of the decision and bookkeeping logic

This project models the logic that sits between the network calls of three small trading bots and proves properties about it.

- **Scanner** (`scanner.dfy`, module `Scanner`). It turns DexScreener pairs into token records. Only Solana pairs are kept, and absent numbers read as 0. It gives each token a bucketed additive score from 0 to 100 over liquidity, 24h volume, 1h/6h momentum and 24h transactions. It picks the best opportunity by scoring every token, sorting the scored array in place by descending score and taking the head. The sort is stable, so ties keep input order. The in-place sort is an insertion sort on an `array`, proved equal to a functional stable sort `SortDesc`. `SortDesc` is proved sorted, a permutation and stable, and its head is proved to be the first token with the top score.
- **Swap executor** (`jupiter_swap.dfy`, module `JupiterSwap`). It models a Jupiter swap as six requests made in a fixed order: quote, build, sign, send, latest blockhash, confirm. The first failing step ends the swap with a failed outcome carrying that step's message. It also covers mint resolution for buys and sells, and the SOL-to-lamport floor.
- **Survival bot** (`survival_bot.dfy`, module `SurvivalBot`). This is the scan cycle, a guard chain of four checks in order: an opportunity exists, its score is at least 50, the token is not already held, and the balance is at least 0.007. When all four pass, the bot buys. The `positions` ledger is a class field. `Scan` keeps position addresses distinct, and it appends exactly one position on a successful buy.
- **BTC predictor** (`btc_predictor.dfy`, module `BtcPredictor`). The momentum fold telescopes, and the integer confidence always lies in [-55, 70]. The confidence is classified as up, down or neutral. `verify` is a state machine over the `correct`, `wrong`, `streak` and `bestStreak` counters. It keeps the invariant that `correct` and `wrong` count exactly the settled predictions, so no prediction is ever counted twice.
- **Simple trader** (`simple_trader.dfy`, module `SimpleTrader`). This is the stateless guard chain of `trade`: it says when the balance is queried and when `buyToken` is called, and with what arguments.

Every network reply is an input. Most are of type `Reply<T>` (`Threw(message)` or `Returned(data)`) from `wrappers.dfy`: the Jupiter quote and build calls, Solana send, blockhash and confirm, the wallet balance and the Bitcoin price. The DexScreener search is an `Option` of its pair list, because the scanner drops the message of a failed request and returns the empty list. The clock (`Date.now()`) is an input too. Prices and amounts are exact `real`s.

## Model

| member | source | states |
|---|---|---|
| Scanner.Normalize | survival-bot/survival-bot/scanner.js:13-25 | address, name and symbol come from the base token; each of price, liquidity, 24h volume and the 1h, 6h and 24h changes is the value present in the pair, or 0 when it is absent; `txns24h` is buys plus sells, each absent one counting 0; the source tag is `dexscreener` |
| Scanner.ScanDexScreener | survival-bot/survival-bot/scanner.js:4-30 | a failed request gives `[]`; a Solana pair without a base token makes the whole scan `[]`; otherwise the i-th token is the normalised i-th Solana pair |
| Scanner.ScanKeepsOnlySolana | survival-bot/survival-bot/scanner.js:11-13 | every token comes from a pair whose `chainId` is `solana`; when the scan succeeds, every Solana pair yields its token |
| Scanner.SolanaPairs | survival-bot/survival-bot/scanner.js:12 | keeps only Solana pairs, each of them, and never more pairs than the input |
| Scanner.SolanaPairsConcat | survival-bot/survival-bot/scanner.js:12 | the filter distributes over concatenation, keeping one-pair inputs that are Solana and dropping the rest, so order and repeated pairs survive |
| Scanner.Score | survival-bot/survival-bot/scanner.js:33-57 | the score always lies in [0, 100] |
| Scanner.LiquidityPoints | survival-bot/survival-bot/scanner.js:37-39 | 30 exactly above 100000, 20 exactly in (50000, 100000], 10 exactly in (20000, 50000], 0 otherwise |
| Scanner.VolumePoints | survival-bot/survival-bot/scanner.js:42-44 | 25 exactly above 50000, 15 exactly in (20000, 50000], 10 exactly in (10000, 20000], 0 otherwise |
| Scanner.MomentumPoints | survival-bot/survival-bot/scanner.js:47-49 | 25 exactly when 1h > 5 and 6h > 10; 15 exactly when not that but 1h > 3 and 6h > 5; 5 exactly when 1h > 0 and not the 15-point case; 0 exactly when 1h <= 0 |
| Scanner.ActivityPoints | survival-bot/survival-bot/scanner.js:52-54 | 20 exactly above 500, 10 exactly in (200, 500], 5 exactly in (50, 200], 0 otherwise |
| Scanner.ScoreToken | survival-bot/survival-bot/scanner.js:33-57 | the running `+=` total equals the table of four buckets (at most one per factor) and lies in [0, 100] |
| Scanner.FactorBuckets | survival-bot/survival-bot/scanner.js:36-54 | liquidity adds one of 0/10/20/30, volume one of 0/10/15/25, momentum one of 0/5/15/25, activity one of 0/5/10/20 |
| Scanner.TopTokenScoresHundred | survival-bot/survival-bot/scanner.js:37-52 | liquidity > 100000, volume > 50000, 1h > 5, 6h > 10 and txns > 500 score exactly 100 |
| Scanner.StrictBoundaries | survival-bot/survival-bot/scanner.js:37-54 | a value exactly on any of the liquidity (100000, 50000, 20000), volume (50000, 20000, 10000) or transaction (500, 200, 50) thresholds, or on any of the 1h (5, 3, 0) and 6h (10, 5) momentum thresholds, falls into the bucket below |
| Scanner.NoMomentumWithoutRise | survival-bot/survival-bot/scanner.js:47-49 | a 1h change of at most 0 earns no momentum points, whatever the 6h change |
| Scanner.ScoreMonotone | survival-bot/survival-bot/scanner.js:37-54 | raising any scored field never lowers that factor's points or the total |
| Scanner.ScoreAll | survival-bot/survival-bot/scanner.js:66-69 | one scored record per token, in input order, carrying the token and its score |
| Scanner.ScoreEach | survival-bot/survival-bot/scanner.js:66-69 | the scoring loop fills a new array equal to `ScoreAll` of the tokens |
| Scanner.InsertDesc | survival-bot/survival-bot/scanner.js:71 | inserting one scored token into a ranking makes it one longer |
| Scanner.SortDesc | survival-bot/survival-bot/scanner.js:71 | the stable descending ranking has as many entries as its input |
| Scanner.InsertDescPermutes | survival-bot/survival-bot/scanner.js:71 | the insertion adds exactly the inserted token to the multiset |
| Scanner.InsertDescSorted | survival-bot/survival-bot/scanner.js:71 | inserting into a non-increasing ranking keeps it non-increasing |
| Scanner.InsertDescStable | survival-bot/survival-bot/scanner.js:71 | the inserted token goes after every earlier token with its score |
| Scanner.InsertDescKeepsHead | survival-bot/survival-bot/scanner.js:71-73 | a token scoring no more than the head leaves the head in place |
| Scanner.InsertDescToFront | survival-bot/survival-bot/scanner.js:71-73 | a token scoring more than every ranked token becomes the head |
| Scanner.InsertIntoPrefix | survival-bot/survival-bot/scanner.js:71 | one pass of the in-place insertion turns the sorted prefix plus the next element into `InsertDesc` of them, and leaves the rest of the array alone |
| Scanner.SortDescStep | survival-bot/survival-bot/scanner.js:71 | sorting one more input element equals inserting it into the sorted prefix, which is the step the in-place sort takes |
| Scanner.SortDescSorted | survival-bot/survival-bot/scanner.js:71 | the ranking is in non-increasing score order |
| Scanner.SortDescPermutes | survival-bot/survival-bot/scanner.js:71 | the ranking is a permutation of the scored tokens |
| Scanner.SortDescStable | survival-bot/survival-bot/scanner.js:71 | for every score, the tokens with that score appear in their input order |
| Scanner.SortByScoreDesc | survival-bot/survival-bot/scanner.js:71 | the in-place insertion sort leaves the array equal to the stable descending ranking of its old contents |
| Scanner.FirstMaxIndex | survival-bot/survival-bot/scanner.js:71-73 | the position returned holds the highest score, and every earlier position scores strictly less |
| Scanner.SortDescHead | survival-bot/survival-bot/scanner.js:71-73 | the head of the ranking is the first token, in input order, with the highest score |
| Scanner.BestOpportunity | survival-bot/survival-bot/scanner.js:59-74 | no opportunity exactly when there are no tokens; otherwise the first scored token with the top score |
| Scanner.BestOpportunityIsFirstMax | survival-bot/survival-bot/scanner.js:62-73 | the best opportunity is some token with its own score; no token scores more, and every earlier token scores less |
| Scanner.FindBestOpportunity | survival-bot/survival-bot/scanner.js:59-74 | returns `None` exactly when the scan found nothing; otherwise it scores, sorts in place and returns the head, equal to `BestOpportunity` |
| JupiterSwap.ResolveMints | survival-bot/survival-bot/survival-bot/jupiter-swap.js:16-17 | `buy` swaps SOL into the token; any other action swaps the token into SOL |
| JupiterSwap.SellReversesBuy | survival-bot/survival-bot/survival-bot/jupiter-swap.js:16-17 | a sell's input and output mints are a buy's output and input mints |
| JupiterSwap.ToLamports | survival-bot/survival-bot/survival-bot/jupiter-swap.js:18 | `lamports <= amountSOL * 10^9 < lamports + 1`, and it is non-negative for a non-negative amount |
| JupiterSwap.FromLamports | survival-bot/survival-bot/survival-bot/jupiter-swap.js:79 | `outAmount / 1e9`: the amount times 10^9 is the lamport count, and it is non-negative for a non-negative count |
| JupiterSwap.LamportsRoundTrip | survival-bot/survival-bot/survival-bot/jupiter-swap.js:18 | converting to lamports and back loses less than 10^-9 SOL; a whole number of lamports converts back to itself |
| JupiterSwap.TradeSizesInLamports | survival-bot/survival-bot/survival-bot/jupiter-swap.js:18 | 0.015 SOL is exactly 15000000 lamports and 0.005 SOL is exactly 5000000, in both directions |
| JupiterSwap.ExplorerUrl | survival-bot/survival-bot/survival-bot/jupiter-swap.js:80 | the URL is `https://solscan.io/tx/` followed by the signature |
| JupiterSwap.FirstFailure | survival-bot/survival-bot/survival-bot/jupiter-swap.js:15-89 | the failure is the first failing step in protocol order: a throwing quote gives its message, a missing quote `No quote from Jupiter`, a throwing build its message, an absent or empty transaction `No swap transaction received`, and a throwing sign, send, blockhash or confirm step (all earlier steps answered) its own message; there is no failure exactly when every step answered and the transaction is non-empty |
| JupiterSwap.ExpectedOutcome | survival-bot/survival-bot/survival-bot/jupiter-swap.js:76-89 | success exactly when no step failed, with the sent signature, `outAmount / 10^9` and the explorer URL; otherwise a failure carrying the first failing step's message |
| JupiterSwap.StepsMade | survival-bot/survival-bot/survival-bot/jupiter-swap.js:20-71 | between 1 and 6 requests: 1 when no quote arrives, 2 when the transaction is missing, 3 when signing fails, 4 when sending fails, 5 when the blockhash request fails, 6 once the blockhash answers; all six on success |
| JupiterSwap.MissingQuoteStopsEarly | survival-bot/survival-bot/survival-bot/jupiter-swap.js:33-35 | a missing quote stops after the quote request, so the build request is never made |
| JupiterSwap.MissingTransactionStopsEarly | survival-bot/survival-bot/survival-bot/jupiter-swap.js:50-52 | a missing swap transaction stops after the build request, so nothing is signed or sent |
| JupiterSwap.SuccessMeansAllStepsRan | survival-bot/survival-bot/survival-bot/jupiter-swap.js:56-81 | a reported success means all six requests were made and the confirmation answered |
| JupiterSwap.SwapToken | survival-bot/survival-bot/survival-bot/jupiter-swap.js:8-90 | always returns an outcome, never an exception; requests are made in protocol order and stop at the first failure; the quote request carries the resolved mints, the floored lamports and 300 bps; the build, sign, send (no skip, 3 retries) and confirm (commitment `confirmed`) requests carry what the previous steps returned |
| JupiterSwap.BuyToken | survival-bot/survival-bot/survival-bot/jupiter-swap.js:93 | a swap whose quote request goes from SOL to the token |
| JupiterSwap.SellToken | survival-bot/survival-bot/survival-bot/jupiter-swap.js:94 | a swap whose quote request goes from the token to SOL |
| SurvivalBot.NewPosition | survival-bot/survival-bot/survival-bot/survival-bot/index.js:63-73 | address, name and symbol come from the token; entry price = price, amount = 0.005, target = price * 1.5, stop = price * 0.7, the swap's signature and the clock reading |
| SurvivalBot.NewPositionBrackets | survival-bot/survival-bot/survival-bot/survival-bot/index.js:67-70 | for a non-negative price, stop <= entry <= target |
| SurvivalBot.Decide | survival-bot/survival-bot/survival-bot/survival-bot/index.js:19-81 | the guards run in order, each ending stated both ways: no opportunity exactly when there is none; a score under 50 exactly when the opportunity scores below 50; already holding exactly when it passes the score and its address is held; a scan error (its message kept) exactly when the earlier guards pass and the balance query throws; insufficient balance exactly when it answers under 0.007; once every guard passes, a successful swap opens a position and a failed one ends as a failed buy, both ways |
| SurvivalBot.BuyCalledIff | survival-bot/survival-bot/survival-bot/survival-bot/index.js:25-60 | the swap executor is reached exactly when: there is an opportunity, its score is at least 50, it is not held, and the balance query answers at least 0.007 |
| SurvivalBot.ScoreFiftyPasses | survival-bot/survival-bot/survival-bot/survival-bot/index.js:37-40 | a score of exactly 50, with a balance of exactly 0.007, leads to a buy |
| SurvivalBot.HeldTokenIsSkipped | survival-bot/survival-bot/survival-bot/survival-bot/index.js:43-46 | an already-held address stops the scan at the duplicate guard, whatever the balance and the swap would do |
| SurvivalBot.AppendKeepsUnique | survival-bot/survival-bot/survival-bot/survival-bot/index.js:43-73 | appending a position whose address is not held keeps addresses pairwise distinct |
| SurvivalBot.SecondBuyOfSameTokenRejected | survival-bot/survival-bot/survival-bot/survival-bot/index.js:43-46 | after a position is opened, the same opportunity is rejected as already held |
| SurvivalBot.ScenarioTopTokenIsBought | survival-bot/survival-bot/survival-bot/survival-bot/index.js:37-60 | the token `{liquidity 120000, volume 60000, 1h 6, 6h 12, txns 600}` scores 100 and, when not held and funded, is bought |
| SurvivalBot.ScenarioLowScoreNeverBuys | survival-bot/survival-bot/survival-bot/survival-bot/index.js:37-40 | a score of 10 never reaches the swap executor |
| SurvivalBot.Bot.constructor | survival-bot/survival-bot/survival-bot/survival-bot/index.js:11-12 | the bot starts with no positions and a zero balance |
| SurvivalBot.Bot.CheckPositions | survival-bot/survival-bot/survival-bot/survival-bot/index.js:14-17 | positions and balance are unchanged |
| SurvivalBot.Bot.Scan | survival-bot/survival-bot/survival-bot/survival-bot/index.js:19-81 | keeps addresses distinct; ends where `Decide` says; requests a buy of `(address, 0.005)` exactly when every guard passes; appends exactly `NewPosition` on success and otherwise leaves positions unchanged; never shortens the list or changes earlier entries; updates `balance` only once the query is reached and answered |
| BtcPredictor.Momentum | btc-predictor/index.js:78 | the fold of successive close differences equals last close minus first close, and 0 for no candles |
| BtcPredictor.MomentumFold | btc-predictor/index.js:78 | the `reduce` started at index 0 with at least one candle, or resumed at any later index with the running sum equal to the close reached minus the first close, yields last close minus first close |
| BtcPredictor.Confidence | btc-predictor/index.js:91-99 | the confidence always lies in [-55, 70] |
| BtcPredictor.ComputeConfidence | btc-predictor/index.js:91-99 | the `+=` then `-=` accumulation equals the sum of one signed term per signal and lies in [-55, 70] |
| BtcPredictor.AllSignalsUp | btc-predictor/index.js:92-95 | every signal pointing up gives confidence 70 |
| BtcPredictor.Classify | btc-predictor/index.js:101 | UP exactly when confidence > 15, DOWN exactly when < -15, NEUTRAL exactly when in [-15, 15] |
| BtcPredictor.Abs | btc-predictor/index.js:110 | `Math.abs`: the result is a natural number equal to the input or its negation |
| BtcPredictor.ActualMove | btc-predictor/index.js:128 | UP exactly when diff > 5, DOWN exactly when diff < -5 |
| BtcPredictor.IsCorrect | btc-predictor/index.js:128 | an UP call is right exactly when diff > 5, a DOWN call exactly when diff < -5, and a NEUTRAL call exactly when abs(diff) < 20 |
| BtcPredictor.MakePrediction | btc-predictor/index.js:76-112 | the record is unverified with `verifyAt = now + 300000`; its direction is `Classify(c)` and its confidence `Abs(c)`, where `c` is the confidence computed from last close minus first close, the two trends and the 24h change; the stored confidence lies in [0, 70], above 15 for UP and DOWN and at most 15 for NEUTRAL |
| BtcPredictor.RecordIsMakePrediction | btc-predictor/index.js:91-112 | the record assembled from the running confidence of `predict` is exactly `MakePrediction` |
| BtcPredictor.Record | btc-predictor/index.js:135-142 | `correct + wrong` grows by one; a right call adds to `correct` and `streak`, leaves `wrong`, and sets `bestStreak` to the larger of itself and the new streak; a wrong call adds to `wrong`, resets `streak` to 0 and leaves `correct` and `bestStreak`; `bestStreak >= streak` is kept |
| BtcPredictor.Settle | btc-predictor/index.js:127-133 | the settled prediction carries the actual move, the correctness and the diff against the current price; every other field is unchanged |
| BtcPredictor.SettleAll | btc-predictor/index.js:120-133 | every prediction that is due (the clock has reached `verifyAt` and it is unverified) is settled, every other one is left as it was, in place |
| BtcPredictor.Tally | btc-predictor/index.js:126-142 | over a round, `correct` and `wrong` never decrease and grow together by at most the number of predictions |
| BtcPredictor.TallyCountsEachDueOnce | btc-predictor/index.js:120-142 | one round adds exactly the number of due predictions to `correct + wrong` |
| BtcPredictor.TallyKeepsBestStreak | btc-predictor/index.js:135-142 | `0 <= streak <= bestStreak` holds after a round, and `bestStreak` never decreases |
| BtcPredictor.SettleAllLeavesNothingDue | btc-predictor/index.js:120-130 | after a round, no prediction is both due and unverified |
| BtcPredictor.TallyOfNothingDue | btc-predictor/index.js:120-122 | with nothing due, a round leaves the counters unchanged, so nothing is counted twice |
| BtcPredictor.Predictor.constructor | btc-predictor/index.js:3-10 | starts with capital 5.0, no predictions and zero counters |
| BtcPredictor.Predictor.Predict | btc-predictor/index.js:63-117 | a failed price query or fewer than 12 candles leaves the predictions unchanged; otherwise it appends exactly the `MakePrediction` record for the last 12 candles; counters are untouched |
| BtcPredictor.Predictor.SettleAt | btc-predictor/index.js:126-143 | a due prediction is marked verified with actual move, correctness and diff, and the counters record that result; a prediction not due is left alone |
| BtcPredictor.DueCount | btc-predictor/index.js:120-122 | the number of due unverified predictions is at most the number held, and is 0 exactly when none of them is due |
| BtcPredictor.Predictor.Verify | btc-predictor/index.js:119-152 | keeps `streak <= bestStreak <= correct`, with `correct`/`wrong` equal to the number of right/wrong settled predictions; asks for the price only when something is due; settles exactly the due predictions, in order; reports `Settled` exactly when at least one prediction is due and the price request answers |
| BtcPredictor.Predictor.SettleDue | btc-predictor/index.js:126-143 | the loop over the predictions leaves them equal to `SettleAll` of the old ones and the counters equal to `Tally` of the old counters, keeping `Valid()` |
| SimpleTrader.Trade | simple-trader.js:9-44 | no opportunity or a score under 20 ends the pass before the balance is queried, and the balance is queried exactly when the opportunity passes; a throwing balance query becomes an error outcome with its message, never an exception; a balance under 0.02 ends the pass as low balance; `buyToken` is called once, with the address and 0.015, exactly when the balance answers at least 0.02, and the pass reports the swap's URL or error |
| SimpleTrader.ScenarioLowBalanceNeverBuys | simple-trader.js:26-29 | a balance of 0.01 takes the low-balance path for any score of at least 20, and with any opportunity at all nothing is bought |
| SimpleTrader.ScoreTwentyPasses | simple-trader.js:14-17 | a score of exactly 20, with a balance of exactly 0.02, leads to a buy |

## Left out

- Network and RPC calls are not modelled: DexScreener, Jupiter quote/swap, Solana `sendRawTransaction`, `getLatestBlockhash` and `confirmTransaction`, wallet `getBalance`, CoinGecko and Binance. Each is an input reply, because its behaviour lies outside the repository. So the CoinGecko-to-Binance fallback in `getBitcoinPrice` is one price reply, and `getHistoricalPrices` is its candle list (empty on failure).
- Transaction handling is not modelled: base64 decoding, `VersionedTransaction.deserialize`, `sign` and `serialize` are foreign library calls. They are one `signing` reply, so the in-place signing of the transaction object is not represented.
- `survival-bot/wallet.js` (environment key loading, `bs58`, `Keypair`) is not part of this model. Nor are the `main` functions, the `setInterval` timers and all console output. A missing `TRADER_PRIVATE_KEY` throws when `wallet.js` is loaded, before any bot runs. `getWallet()` and `new Connection` run outside the `try` in `swapToken`, so a malformed key would throw from `swapToken` instead of returning a failed outcome. Both are configuration failures and are not modelled.
- Floating point is not modelled; amounts are exact reals. So `POSITION_SIZE + 0.002` is exactly 0.007, `SIZE + 0.005` is exactly 0.02, `amountSOL * 1e9` is exact before the floor, and `price * 1.5` and `price * 0.7` are exact. The `NaN` that `parseFloat` gives for a malformed number is not representable: a present field is the number it parses to.
- `volTrend` and `shortTrend` (btc-predictor/index.js:80-85) are inputs to `Predict`, because their float divisions can divide by zero.
- Predict: `Date.now()` is read twice in the source, for `timestamp` and for `verifyAt`; the model uses one reading for both.
- Verify: the source filters with a fresh `Date.now()` for each prediction; the model uses one reading for the whole round.
- Verify: the source updates the prediction objects through the references in `toVerify`. The model replaces the same elements of `predictions`, which leaves the same state.
- Scanner.SortByScoreDesc: `Array.prototype.sort` belongs to the JavaScript engine, so its algorithm is not in the repository. The model uses a stable insertion sort, which produces the one order a stable sort with that comparator may produce.
- An exception that `predict` or `verify` lets escape (a failed price query) appears as a `PriceUnavailable` / `VerifyPriceUnavailable` outcome that changes nothing; the unhandled rejection in the timer callback is not modelled.
- The closing of positions (open/closed states, sell on target or stop) is not implemented in the source, where `checkPositions` is empty, so it is not modelled. `sellToken` is modelled as a swap wrapper only.
- SurvivalBot.Bot.Scan: each scan is modelled as one atomic step. In the source the `setInterval` callback (index.js:105-108) does not wait for the previous one, so a scan still waiting on `buyToken` can overlap the next. Both can then pass the held check (index.js:43) before either pushes (index.js:63), and the same address can be recorded twice. The distinct-addresses invariant `Valid()` holds only for scans that do not overlap.
- A confirmation that times out is, as in the source, an ordinary failed outcome; it is not distinguished from a clean failure.
