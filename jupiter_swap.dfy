/**
 * The swap executor: a Jupiter swap as a fixed sequence of steps (quote,
 * build, sign, send, latest blockhash, confirm), each of which may fail; the
 * first failure ends the swap with a failed outcome carrying its message.
 * What the network and the signing library answer is given as `Network`, one
 * reply per step; the calls the executor makes are returned as a trace.
 */
module JupiterSwap {
  import opened Wrappers

  const SOL_MINT: string := "So11111111111111111111111111111111111111112"
  const LAMPORTS_PER_SOL: real := 1000000000.0
  const SLIPPAGE_BPS: int := 300
  const MAX_RETRIES: int := 3
  const COMMITMENT: string := "confirmed"
  const EXPLORER_TX: string := "https://solscan.io/tx/"
  const BUY: string := "buy"
  const SELL: string := "sell"
  const NO_QUOTE: string := "No quote from Jupiter"
  const NO_SWAP_TRANSACTION: string := "No swap transaction received"

  /** The part of a Jupiter quote the executor reads: the output amount in smallest units. */
  datatype Quote = Quote(outAmount: int)

  datatype Blockhash = Blockhash(blockhash: string, lastValidBlockHeight: int)

  /**
   * The answer each step would get. `quote` and `swapTransaction` return
   * `None` when the response carries no data; signing covers decoding,
   * deserialising, signing and serialising the payload.
   */
  datatype Network = Network(
    quote: Reply<Option<Quote>>,
    swapTransaction: Reply<Option<string>>,
    signing: Reply<()>,
    send: Reply<string>,
    latestBlockhash: Reply<Blockhash>,
    confirm: Reply<()>)

  /** A request the executor makes, in the order it makes them. */
  datatype Call =
    | GetQuote(inputMint: string, outputMint: string, amount: int, slippageBps: int, onlyDirectRoutes: bool)
    | BuildSwap(quote: Quote, userPublicKey: string, wrapAndUnwrapSol: bool,
                dynamicComputeUnitLimit: bool, prioritizationFeeLamports: string)
    | SignTransaction(payload: string)
    | SendRawTransaction(skipPreflight: bool, maxRetries: int)
    | GetLatestBlockhash
    | ConfirmTransaction(signature: string, blockhash: string, lastValidBlockHeight: int, commitment: string)
  {
    /** The position of this kind of request in the protocol. */
    function Stage(): nat
    {
      match this
      case GetQuote(_, _, _, _, _) => 0
      case BuildSwap(_, _, _, _, _) => 1
      case SignTransaction(_) => 2
      case SendRawTransaction(_, _) => 3
      case GetLatestBlockhash => 4
      case ConfirmTransaction(_, _, _, _) => 5
    }
  }

  /** A call of `buyToken`: the token to buy and the SOL to spend. */
  datatype BuyRequest = BuyRequest(tokenMint: string, amountSOL: real)

  /** The result record of one swap. */
  datatype SwapOutcome =
    | Swapped(signature: string, outputAmount: real, url: string)
    | SwapFailed(error: string)

  // ---------------------------------------------------------------------------
  // Pure parts
  // ---------------------------------------------------------------------------

  /** Input and output mints: a buy spends SOL for the token, any other action spends the token for SOL. */
  function ResolveMints(tokenMint: string, action: string): (mints: (string, string))
    ensures action == BUY ==> mints.0 == SOL_MINT && mints.1 == tokenMint
    ensures action != BUY ==> mints.0 == tokenMint && mints.1 == SOL_MINT
  {
    if action == BUY then (SOL_MINT, tokenMint) else (tokenMint, SOL_MINT)
  }

  /** A sell swaps the roles of the two mints of a buy. */
  lemma SellReversesBuy(tokenMint: string)
    ensures ResolveMints(tokenMint, SELL) == (ResolveMints(tokenMint, BUY).1, ResolveMints(tokenMint, BUY).0)
  {
  }

  /** SOL to lamports, rounded down. */
  function ToLamports(amountSOL: real): (lamports: int)
    ensures lamports as real <= amountSOL * LAMPORTS_PER_SOL < lamports as real + 1.0
    ensures amountSOL >= 0.0 ==> lamports >= 0
  {
    (amountSOL * LAMPORTS_PER_SOL).Floor
  }

  /** Smallest units to whole tokens, as the outcome's `outputAmount` is computed. */
  function FromLamports(lamports: int): (amount: real)
    ensures amount * LAMPORTS_PER_SOL == lamports as real
    ensures lamports >= 0 ==> amount >= 0.0
  {
    lamports as real / LAMPORTS_PER_SOL
  }

  /** Converting to lamports and back loses less than one lamport, and whole lamports survive the round trip. */
  lemma LamportsRoundTrip(amountSOL: real, lamports: int)
    ensures FromLamports(ToLamports(amountSOL)) <= amountSOL < FromLamports(ToLamports(amountSOL)) + 1.0 / LAMPORTS_PER_SOL
    ensures ToLamports(FromLamports(lamports)) == lamports
  {
  }

  /** The trade sizes of the bots convert exactly. */
  lemma TradeSizesInLamports()
    ensures ToLamports(0.015) == 15000000 && FromLamports(15000000) == 0.015
    ensures ToLamports(0.005) == 5000000 && FromLamports(5000000) == 0.005
  {
  }

  /** The block-explorer link of a transaction. */
  function ExplorerUrl(signature: string): (url: string)
    ensures |url| == |EXPLORER_TX| + |signature|
    ensures url[..|EXPLORER_TX|] == EXPLORER_TX && url[|EXPLORER_TX|..] == signature
  {
    EXPLORER_TX + signature
  }

  /** `!payload`: an absent or empty swap transaction counts as missing. */
  predicate HasPayload(tx: Option<string>)
  {
    tx.Some? && tx.value != ""
  }

  /** A quote arrived. */
  predicate Quoted(net: Network)
  {
    net.quote.Returned? && net.quote.data.Some?
  }

  /** A quote and a non-empty swap transaction arrived, so the executor goes on to sign. */
  predicate ReachesSigning(net: Network)
  {
    Quoted(net) && net.swapTransaction.Returned? && HasPayload(net.swapTransaction.data)
  }

  /** The message of the first step that fails, or `None` when every step succeeds. */
  function FirstFailure(net: Network): (m: Option<string>)
    ensures net.quote == Returned(None) ==> m == Some(NO_QUOTE)
    ensures net.quote.Threw? ==> m == Some(net.quote.message)
    ensures Quoted(net) && net.swapTransaction.Threw? ==> m == Some(net.swapTransaction.message)
    ensures Quoted(net) && net.swapTransaction.Returned? && !HasPayload(net.swapTransaction.data) ==>
      m == Some(NO_SWAP_TRANSACTION)
    ensures ReachesSigning(net) && net.signing.Threw? ==> m == Some(net.signing.message)
    ensures ReachesSigning(net) && net.signing.Returned? && net.send.Threw? ==> m == Some(net.send.message)
    ensures ReachesSigning(net) && net.signing.Returned? && net.send.Returned? && net.latestBlockhash.Threw? ==>
      m == Some(net.latestBlockhash.message)
    ensures (ReachesSigning(net) && net.signing.Returned? && net.send.Returned? && net.latestBlockhash.Returned?
             && net.confirm.Threw?) ==> m == Some(net.confirm.message)
    ensures m.None? <==>
      && net.quote.Returned? && net.quote.data.Some?
      && net.swapTransaction.Returned? && HasPayload(net.swapTransaction.data)
      && net.signing.Returned? && net.send.Returned?
      && net.latestBlockhash.Returned? && net.confirm.Returned?
  {
    match net.quote
    case Threw(e) => Some(e)
    case Returned(q) =>
      if q.None? then Some(NO_QUOTE)
      else match net.swapTransaction
        case Threw(e) => Some(e)
        case Returned(tx) =>
          if !HasPayload(tx) then Some(NO_SWAP_TRANSACTION)
          else if net.signing.Threw? then Some(net.signing.message)
          else if net.send.Threw? then Some(net.send.message)
          else if net.latestBlockhash.Threw? then Some(net.latestBlockhash.message)
          else if net.confirm.Threw? then Some(net.confirm.message)
          else None
  }

  /** The outcome a swap against `net` reports. */
  function ExpectedOutcome(net: Network): (o: SwapOutcome)
    ensures o.Swapped? <==> FirstFailure(net).None?
    ensures o.SwapFailed? ==> o.error == FirstFailure(net).value
    ensures o.Swapped? ==>
      && o.signature == net.send.data
      && o.outputAmount == FromLamports(net.quote.data.value.outAmount)
      && o.url == ExplorerUrl(net.send.data)
  {
    match FirstFailure(net)
    case Some(e) => SwapFailed(e)
    case None =>
      var signature := net.send.data;
      Swapped(signature, FromLamports(net.quote.data.value.outAmount), ExplorerUrl(signature))
  }

  /** How many of the six requests a swap against `net` makes before it stops. */
  function StepsMade(net: Network): (n: nat)
    ensures 1 <= n <= 6
    ensures n == 1 <==> !Quoted(net)
    ensures n == 2 <==> Quoted(net) && !ReachesSigning(net)
    ensures ReachesSigning(net) && net.signing.Threw? ==> n == 3
    ensures ReachesSigning(net) && net.signing.Returned? && net.send.Threw? ==> n == 4
    ensures ReachesSigning(net) && net.signing.Returned? && net.send.Returned? && net.latestBlockhash.Threw? ==> n == 5
    ensures ReachesSigning(net) && net.signing.Returned? && net.send.Returned? && net.latestBlockhash.Returned? ==> n == 6
    ensures FirstFailure(net).None? ==> n == 6
  {
    if !(net.quote.Returned? && net.quote.data.Some?) then 1
    else if !(net.swapTransaction.Returned? && HasPayload(net.swapTransaction.data)) then 2
    else if net.signing.Threw? then 3
    else if net.send.Threw? then 4
    else if net.latestBlockhash.Threw? then 5
    else 6
  }

  /** A missing quote ends the swap after the quote request, with the no-quote message. */
  lemma MissingQuoteStopsEarly(net: Network)
    requires net.quote == Returned(None)
    ensures StepsMade(net) == 1 && ExpectedOutcome(net) == SwapFailed(NO_QUOTE)
  {
  }

  /** A quote without a usable transaction ends the swap before anything is signed or sent. */
  lemma MissingTransactionStopsEarly(net: Network)
    requires net.quote.Returned? && net.quote.data.Some?
    requires net.swapTransaction.Returned? && !HasPayload(net.swapTransaction.data)
    ensures StepsMade(net) == 2 && ExpectedOutcome(net) == SwapFailed(NO_SWAP_TRANSACTION)
  {
  }

  /** A reported success means every request was made and answered. */
  lemma SuccessMeansAllStepsRan(net: Network)
    requires ExpectedOutcome(net).Swapped?
    ensures StepsMade(net) == 6 && net.confirm.Returned? && net.latestBlockhash.Returned?
  {
  }

  // ---------------------------------------------------------------------------
  // The step protocol
  // ---------------------------------------------------------------------------

  /**
   * `swapToken`. Every exception a step raises, and each of the two explicit
   * checks, becomes a failed outcome: the method always returns a record.
   */
  method SwapToken(tokenMint: string, amountSOL: real, action: string, userPublicKey: string, net: Network)
    returns (outcome: SwapOutcome, calls: seq<Call>)
    ensures outcome == ExpectedOutcome(net)
    ensures |calls| == StepsMade(net)
    ensures forall i :: 0 <= i < |calls| ==> calls[i].Stage() == i
    ensures calls[0] == GetQuote(ResolveMints(tokenMint, action).0, ResolveMints(tokenMint, action).1,
                                 ToLamports(amountSOL), SLIPPAGE_BPS, false)
    ensures |calls| >= 2 ==> calls[1] == BuildSwap(net.quote.data.value, userPublicKey, true, true, "auto")
    ensures |calls| >= 3 ==> calls[2] == SignTransaction(net.swapTransaction.data.value)
    ensures |calls| >= 4 ==> calls[3] == SendRawTransaction(false, MAX_RETRIES)
    ensures |calls| == 6 ==> calls[5] == ConfirmTransaction(net.send.data, net.latestBlockhash.data.blockhash,
                                                            net.latestBlockhash.data.lastValidBlockHeight, COMMITMENT)
  {
    var mints := ResolveMints(tokenMint, action);
    var amountLamports := ToLamports(amountSOL);

    calls := [GetQuote(mints.0, mints.1, amountLamports, SLIPPAGE_BPS, false)];
    if net.quote.Threw? {
      return SwapFailed(net.quote.message), calls;
    }
    if net.quote.data.None? {
      return SwapFailed(NO_QUOTE), calls;
    }
    var quote := net.quote.data.value;

    calls := calls + [BuildSwap(quote, userPublicKey, true, true, "auto")];
    if net.swapTransaction.Threw? {
      return SwapFailed(net.swapTransaction.message), calls;
    }
    if !HasPayload(net.swapTransaction.data) {
      return SwapFailed(NO_SWAP_TRANSACTION), calls;
    }

    calls := calls + [SignTransaction(net.swapTransaction.data.value)];
    if net.signing.Threw? {
      return SwapFailed(net.signing.message), calls;
    }

    calls := calls + [SendRawTransaction(false, MAX_RETRIES)];
    if net.send.Threw? {
      return SwapFailed(net.send.message), calls;
    }
    var signature := net.send.data;

    calls := calls + [GetLatestBlockhash];
    if net.latestBlockhash.Threw? {
      return SwapFailed(net.latestBlockhash.message), calls;
    }
    var latest := net.latestBlockhash.data;

    calls := calls + [ConfirmTransaction(signature, latest.blockhash, latest.lastValidBlockHeight, COMMITMENT)];
    if net.confirm.Threw? {
      return SwapFailed(net.confirm.message), calls;
    }

    outcome := Swapped(signature, FromLamports(quote.outAmount), ExplorerUrl(signature));
  }

  /** `buyToken`: a swap from SOL into `tokenMint`. */
  method BuyToken(tokenMint: string, amountSOL: real, userPublicKey: string, net: Network)
    returns (outcome: SwapOutcome, calls: seq<Call>)
    ensures outcome == ExpectedOutcome(net) && |calls| == StepsMade(net)
    ensures calls[0] == GetQuote(SOL_MINT, tokenMint, ToLamports(amountSOL), SLIPPAGE_BPS, false)
  {
    outcome, calls := SwapToken(tokenMint, amountSOL, BUY, userPublicKey, net);
  }

  /** `sellToken`: a swap from `tokenMint` back into SOL. */
  method SellToken(tokenMint: string, amountSOL: real, userPublicKey: string, net: Network)
    returns (outcome: SwapOutcome, calls: seq<Call>)
    ensures outcome == ExpectedOutcome(net) && |calls| == StepsMade(net)
    ensures calls[0] == GetQuote(tokenMint, SOL_MINT, ToLamports(amountSOL), SLIPPAGE_BPS, false)
  {
    outcome, calls := SwapToken(tokenMint, amountSOL, SELL, userPublicKey, net);
  }
}
