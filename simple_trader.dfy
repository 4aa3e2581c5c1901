/**
 * The simple aggressive trader: one stateless pass of a guard chain. No
 * opportunity or a score under 20 ends the pass before the balance is asked
 * for; a balance under the trade size plus the fee reserve ends it before the
 * buy; otherwise it buys once at the fixed size. Every error is caught.
 */
module SimpleTrader {
  import opened Wrappers
  import opened Scanner
  import opened JupiterSwap

  const SIZE: real := 0.015
  const MIN_SCORE: int := 20
  const FEE_RESERVE: real := 0.005

  /** How one pass of `trade` ended. */
  datatype TradeStep =
    | NoGoodOpportunity
    | TradeError(message: string)
    | LowBalance
    | TradeSucceeded(url: string)
    | TradeFailed(error: string)

  /** Where a pass ended, whether it asked for the balance, and the buy it made. */
  datatype TradeRun = TradeRun(step: TradeStep, balanceQueried: bool, buy: Option<BuyRequest>)

  /** An opportunity exists and reaches the minimum score. */
  predicate Passes(opportunity: Option<ScoredToken>)
  {
    opportunity.Some? && opportunity.value.score >= MIN_SCORE
  }

  /**
   * `trade`, given the best opportunity, what the balance query would answer
   * and what `buyToken` would return.
   */
  function Trade(opportunity: Option<ScoredToken>, fetchedBalance: Reply<real>, buyResult: SwapOutcome): (run: TradeRun)
    ensures !Passes(opportunity) ==> run == TradeRun(NoGoodOpportunity, false, None)
    ensures run.balanceQueried <==> Passes(opportunity)
    ensures Passes(opportunity) && fetchedBalance.Threw? ==>
      run.step == TradeError(fetchedBalance.message) && run.buy.None?
    ensures Passes(opportunity) && fetchedBalance.Returned? && fetchedBalance.data < 0.02 ==>
      run.step == LowBalance && run.buy.None?
    ensures run.buy.Some? <==>
      && opportunity.Some? && opportunity.value.score >= MIN_SCORE
      && fetchedBalance.Returned? && fetchedBalance.data >= 0.02
    ensures run.buy.Some? ==> run.buy.value == BuyRequest(opportunity.value.token.address, 0.015)
    ensures run.buy.Some? ==> run.balanceQueried
    ensures run.buy.Some? && buyResult.Swapped? ==> run.step == TradeSucceeded(buyResult.url)
    ensures run.buy.Some? && buyResult.SwapFailed? ==> run.step == TradeFailed(buyResult.error)
    ensures fetchedBalance.Threw? && run.balanceQueried ==> run.step == TradeError(fetchedBalance.message)
  {
    if opportunity.None? || opportunity.value.score < MIN_SCORE then
      TradeRun(NoGoodOpportunity, false, None)
    else if fetchedBalance.Threw? then
      TradeRun(TradeError(fetchedBalance.message), true, None)
    else if fetchedBalance.data < SIZE + FEE_RESERVE then
      TradeRun(LowBalance, true, None)
    else
      var buy := BuyRequest(opportunity.value.token.address, SIZE);
      match buyResult
      case Swapped(_, _, url) => TradeRun(TradeSucceeded(url), true, Some(buy))
      case SwapFailed(error) => TradeRun(TradeFailed(error), true, Some(buy))
  }

  /** With a balance of 0.01 any opportunity past the score guard takes the low-balance path; no opportunity is ever bought. */
  lemma ScenarioLowBalanceNeverBuys(opportunity: ScoredToken, buyResult: SwapOutcome)
    requires opportunity.score >= MIN_SCORE
    ensures Trade(Some(opportunity), Returned(0.01), buyResult) == TradeRun(LowBalance, true, None)
    ensures forall o :: Trade(o, Returned(0.01), buyResult).buy.None?
  {
  }

  /** The minimum score is inclusive: a score of exactly 20 with funds leads to a buy. */
  lemma ScoreTwentyPasses(opportunity: ScoredToken, buyResult: SwapOutcome)
    requires opportunity.score == MIN_SCORE
    ensures Trade(Some(opportunity), Returned(0.02), buyResult).buy.Some?
  {
  }
}
