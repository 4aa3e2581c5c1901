/**
 * The survival bot's scan cycle and its in-memory position ledger. A scan
 * runs a chain of guards (an opportunity exists, its score reaches the
 * minimum, the token is not already held, the balance covers a position plus
 * the fee reserve) and, when all pass, buys; a successful buy appends one
 * position. The best opportunity, the wallet balance and what the buy returns
 * are inputs.
 */
module SurvivalBot {
  import opened Wrappers
  import opened Scanner
  import opened JupiterSwap

  const POSITION_SIZE: real := 0.005
  const FEE_RESERVE: real := 0.002
  const MIN_SCORE: int := 50
  const PROFIT_TARGET: real := 1.5
  const STOP_LOSS: real := 0.7

  /** An open position, created once per successful buy and never changed afterwards. */
  datatype Position = Position(
    address: string,
    name: string,
    symbol: string,
    entryPrice: real,
    amount: real,
    targetPrice: real,
    stopPrice: real,
    entryTime: int,
    signature: string)

  /** How one scan ended. */
  datatype ScanStep =
    | NoOpportunity
    | ScoreTooLow
    | AlreadyHolding
    | ScanError(message: string)
    | InsufficientBalance
    | BuyFailed
    | Opened

  /** `positions.find(p => p.address === address)` finds something. */
  predicate Holds(positions: seq<Position>, address: string)
  {
    exists i :: 0 <= i < |positions| && positions[i].address == address
  }

  /** No two positions share an address. */
  predicate UniqueAddresses(positions: seq<Position>)
  {
    forall i, j :: 0 <= i < j < |positions| ==> positions[i].address != positions[j].address
  }

  /** The position recorded for a successful buy of `opportunity`. */
  function NewPosition(opportunity: ScoredToken, signature: string, now: int): (p: Position)
    ensures p.address == opportunity.token.address && p.entryPrice == opportunity.token.price
    ensures p.name == opportunity.token.name && p.symbol == opportunity.token.symbol
    ensures p.amount == POSITION_SIZE && p.signature == signature && p.entryTime == now
    ensures p.targetPrice == opportunity.token.price * 3.0 / 2.0
    ensures p.stopPrice == opportunity.token.price * 7.0 / 10.0
  {
    var t := opportunity.token;
    Position(t.address, t.name, t.symbol, t.price, POSITION_SIZE,
             t.price * PROFIT_TARGET, t.price * STOP_LOSS, now, signature)
  }

  /** The entry price lies between the stop and the target whenever the price is not negative. */
  lemma NewPositionBrackets(opportunity: ScoredToken, signature: string, now: int)
    requires opportunity.token.price >= 0.0
    ensures NewPosition(opportunity, signature, now).stopPrice <= NewPosition(opportunity, signature, now).entryPrice
    ensures NewPosition(opportunity, signature, now).entryPrice <= NewPosition(opportunity, signature, now).targetPrice
  {
  }

  /** Every guard of a scan passes: a good enough opportunity, not held, and a balance that covers the buy. */
  predicate GuardsPass(positions: seq<Position>, opportunity: Option<ScoredToken>, fetchedBalance: Reply<real>)
  {
    && opportunity.Some? && opportunity.value.score >= MIN_SCORE
    && !Holds(positions, opportunity.value.token.address)
    && fetchedBalance.Returned? && fetchedBalance.data >= POSITION_SIZE + FEE_RESERVE
  }

  /**
   * Where the guard chain of one scan ends, given the positions held, the best
   * opportunity, the balance query's reply and what the buy would return.
   */
  function Decide(positions: seq<Position>, opportunity: Option<ScoredToken>,
                  fetchedBalance: Reply<real>, buyResult: SwapOutcome): (step: ScanStep)
    ensures step == NoOpportunity <==> opportunity.None?
    ensures step == ScoreTooLow <==> opportunity.Some? && opportunity.value.score < MIN_SCORE
    ensures step == AlreadyHolding <==>
      opportunity.Some? && opportunity.value.score >= MIN_SCORE && Holds(positions, opportunity.value.token.address)
    ensures step == InsufficientBalance <==>
      && opportunity.Some? && opportunity.value.score >= MIN_SCORE && !Holds(positions, opportunity.value.token.address)
      && fetchedBalance.Returned? && fetchedBalance.data < 0.007
    ensures step.ScanError? <==>
      && opportunity.Some? && opportunity.value.score >= MIN_SCORE && !Holds(positions, opportunity.value.token.address)
      && fetchedBalance.Threw?
    ensures step.ScanError? ==> step.message == fetchedBalance.message
    ensures step == Opened <==> GuardsPass(positions, opportunity, fetchedBalance) && buyResult.Swapped?
    ensures step == BuyFailed <==> GuardsPass(positions, opportunity, fetchedBalance) && buyResult.SwapFailed?
  {
    if opportunity.None? then NoOpportunity
    else if opportunity.value.score < MIN_SCORE then ScoreTooLow
    else if Holds(positions, opportunity.value.token.address) then AlreadyHolding
    else if fetchedBalance.Threw? then ScanError(fetchedBalance.message)
    else if fetchedBalance.data < POSITION_SIZE + FEE_RESERVE then InsufficientBalance
    else if buyResult.Swapped? then Opened
    else BuyFailed
  }

  /** The scan reached the swap executor. */
  predicate BuyCalled(step: ScanStep)
  {
    step == Opened || step == BuyFailed
  }

  /** The scan reached the balance query. */
  predicate BalanceQueried(step: ScanStep)
  {
    step.ScanError? || step == InsufficientBalance || BuyCalled(step)
  }

  /** A buy happens exactly when every guard passes. */
  lemma BuyCalledIff(positions: seq<Position>, opportunity: Option<ScoredToken>,
                     fetchedBalance: Reply<real>, buyResult: SwapOutcome)
    ensures BuyCalled(Decide(positions, opportunity, fetchedBalance, buyResult)) <==>
      && opportunity.Some?
      && opportunity.value.score >= MIN_SCORE
      && !Holds(positions, opportunity.value.token.address)
      && fetchedBalance.Returned?
      && fetchedBalance.data >= 0.007
  {
  }

  /** The minimum score is inclusive: a score of exactly 50 passes the score guard. */
  lemma ScoreFiftyPasses(positions: seq<Position>, opportunity: ScoredToken, buyResult: SwapOutcome)
    requires opportunity.score == MIN_SCORE && !Holds(positions, opportunity.token.address)
    ensures BuyCalled(Decide(positions, Some(opportunity), Returned(0.007), buyResult))
  {
  }

  /** An opportunity already held stops the scan before the balance query. */
  lemma HeldTokenIsSkipped(positions: seq<Position>, opportunity: ScoredToken,
                           fetchedBalance: Reply<real>, buyResult: SwapOutcome)
    requires opportunity.score >= MIN_SCORE && Holds(positions, opportunity.token.address)
    ensures Decide(positions, Some(opportunity), fetchedBalance, buyResult) == AlreadyHolding
  {
  }

  /** Appending a position whose address is not held keeps the addresses distinct. */
  lemma {:induction false} AppendKeepsUnique(positions: seq<Position>, p: Position)
    requires UniqueAddresses(positions) && !Holds(positions, p.address)
    ensures UniqueAddresses(positions + [p])
    ensures Holds(positions + [p], p.address)
  {
    var ps := positions + [p];
    forall i, j | 0 <= i < j < |ps| ensures ps[i].address != ps[j].address {
      if j == |positions| {
        assert ps[i] == positions[i];
      }
    }
    assert ps[|positions|] == p;
  }

  /** Once a token has been bought, a later scan of the same opportunity stops at the duplicate guard. */
  lemma SecondBuyOfSameTokenRejected(positions: seq<Position>, opportunity: ScoredToken, signature: string, now: int,
                                     fetchedBalance: Reply<real>, buyResult: SwapOutcome)
    requires opportunity.score >= MIN_SCORE
    ensures Decide(positions + [NewPosition(opportunity, signature, now)], Some(opportunity), fetchedBalance, buyResult)
      == AlreadyHolding
  {
    var ps := positions + [NewPosition(opportunity, signature, now)];
    assert ps[|positions|].address == opportunity.token.address;
  }

  /** A token over the top bucket of every factor scores 100 and, with funds, is bought at the position size. */
  lemma ScenarioTopTokenIsBought(positions: seq<Position>, t: Token, balance: real, buyResult: SwapOutcome)
    requires t.liquidity == 120000.0 && t.volume24h == 60000.0
    requires t.priceChange1h == 6.0 && t.priceChange6h == 12.0 && t.txns24h == 600
    requires !Holds(positions, t.address) && balance >= POSITION_SIZE + FEE_RESERVE
    ensures Score(t) == 100
    ensures BuyCalled(Decide(positions, Some(ScoredToken(t, Score(t))), Returned(balance), buyResult))
  {
  }

  /** A score of 10 never reaches the swap executor, whatever the balance. */
  lemma ScenarioLowScoreNeverBuys(positions: seq<Position>, t: Token, fetchedBalance: Reply<real>, buyResult: SwapOutcome)
    ensures !BuyCalled(Decide(positions, Some(ScoredToken(t, 10)), fetchedBalance, buyResult))
  {
  }

  class Bot {
    var positions: seq<Position>
    var balance: real

    ghost predicate Valid()
      reads this
    {
      UniqueAddresses(positions)
    }

    constructor ()
      ensures Valid() && positions == [] && balance == 0.0
    {
      positions := [];
      balance := 0.0;
    }

    /** `checkPositions`: closing positions is not implemented, so it changes nothing. */
    method CheckPositions()
      requires Valid()
      ensures Valid() && positions == old(positions) && balance == old(balance)
    {
    }

    /**
     * `scan`. `fetchedBalance` is what the balance query would answer (asked
     * only once the first three guards pass), `buyResult` what `buyToken`
     * would return, `now` the clock. Returns where the scan stopped and the
     * buy it requested, if any.
     */
    method Scan(opportunity: Option<ScoredToken>, fetchedBalance: Reply<real>, buyResult: SwapOutcome, now: int)
      returns (step: ScanStep, buy: Option<BuyRequest>)
      requires Valid()
      modifies this
      ensures Valid()
      ensures step == Decide(old(positions), opportunity, fetchedBalance, buyResult)
      ensures buy.Some? <==> BuyCalled(step)
      ensures buy.Some? ==> buy.value == BuyRequest(opportunity.value.token.address, POSITION_SIZE)
      ensures step == Opened ==>
        positions == old(positions) + [NewPosition(opportunity.value, buyResult.signature, now)]
      ensures step != Opened ==> positions == old(positions)
      ensures |positions| >= |old(positions)| && positions[..|old(positions)|] == old(positions)
      ensures balance == if BalanceQueried(step) && fetchedBalance.Returned? then fetchedBalance.data else old(balance)
    {
      buy := None;
      if opportunity.None? {
        return NoOpportunity, buy;
      }
      var opp := opportunity.value;
      if opp.score < MIN_SCORE {
        return ScoreTooLow, buy;
      }
      if exists i :: 0 <= i < |positions| && positions[i].address == opp.token.address {
        return AlreadyHolding, buy;
      }
      if fetchedBalance.Threw? {
        return ScanError(fetchedBalance.message), buy;
      }
      balance := fetchedBalance.data;
      if balance < POSITION_SIZE + FEE_RESERVE {
        return InsufficientBalance, buy;
      }
      buy := Some(BuyRequest(opp.token.address, POSITION_SIZE));
      if buyResult.Swapped? {
        var p := NewPosition(opp, buyResult.signature, now);
        AppendKeepsUnique(positions, p);
        positions := positions + [p];
        step := Opened;
      } else {
        step := BuyFailed;
      }
    }
  }
}
