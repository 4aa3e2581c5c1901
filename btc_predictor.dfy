/**
 * The Bitcoin five-minute predictor: `predict` turns recent candles and the
 * 24h change into an integer confidence, classifies it as up, down or neutral
 * and records a prediction due five minutes later; `verify` settles every due
 * prediction against the current price and keeps the correct/wrong/streak
 * counters. Prices, candles, the derived volume and short-term trends, and
 * the clock are inputs.
 */
module BtcPredictor {
  import opened Wrappers

  const HISTORY_WINDOW: int := 12
  const VERIFY_DELAY_MS: int := 5 * 60 * 1000
  const INITIAL_CAPITAL: real := 5.0

  datatype Direction = Up | Down | Neutral

  datatype Candle = Candle(time: int, open: real, high: real, low: real, close: real, volume: real)

  /** Current price and its 24h change in percent. */
  datatype Ticker = Ticker(price: real, change24h: real)

  /** The fields `verify` adds to a prediction it settles. */
  datatype Verification = Verification(actual: Direction, correct: bool, priceDiff: real)

  /** A recorded prediction; `verification` is `None` until it is verified. */
  datatype Prediction = Prediction(
    timestamp: int,
    currentPrice: real,
    prediction: Direction,
    confidence: int,
    verifyAt: int,
    verification: Option<Verification>)

  /** The scoreboard of `verify`. */
  datatype Stats = Stats(correct: int, wrong: int, streak: int, bestStreak: int)

  datatype PredictOutcome = PriceUnavailable(message: string) | InsufficientData | Predicted(pred: Prediction)

  datatype VerifyOutcome = NothingDue | VerifyPriceUnavailable(message: string) | Settled(count: nat)

  // ---------------------------------------------------------------------------
  // Momentum
  // ---------------------------------------------------------------------------

  /**
   * `recent.reduce((sum, c, i) => i === 0 ? 0 : sum + (c.close - recent[i-1].close), 0)`
   * from index `i` on. Started at 0, or anywhere with the running sum equal to
   * the close reached minus the first close, it ends at last close minus first close.
   */
  function MomentumFold(recent: seq<Candle>, i: nat, sum: real): (r: real)
    requires i <= |recent|
    ensures 1 <= i && sum == recent[i - 1].close - recent[0].close ==>
      r == recent[|recent| - 1].close - recent[0].close
    ensures i == 0 && |recent| >= 1 ==> r == recent[|recent| - 1].close - recent[0].close
    decreases |recent| - i
  {
    if i == |recent| then sum
    else MomentumFold(recent, i + 1, if i == 0 then 0.0 else sum + (recent[i].close - recent[i - 1].close))
  }

  /** `momentum`: the sum of successive close differences, which telescopes to last close minus first close. */
  function Momentum(recent: seq<Candle>): (m: real)
    ensures |recent| == 0 ==> m == 0.0
    ensures |recent| >= 1 ==> m == recent[|recent| - 1].close - recent[0].close
  {
    MomentumFold(recent, 0, 0.0)
  }

  // ---------------------------------------------------------------------------
  // Confidence and classification
  // ---------------------------------------------------------------------------

  /** A rising or falling signal moves the confidence by `points` in its direction. */
  function Signed(up: bool, down: bool, points: int): int
  {
    (if up then points else 0) - (if down then points else 0)
  }

  /** The confidence as a sum of one signed term per signal. */
  function Confidence(momentum: real, shortTrend: real, volTrend: real, change24h: real): (c: int)
    ensures -55 <= c <= 70
  {
    Signed(momentum > 0.0, momentum < 0.0, 20)
    + Signed(shortTrend > 0.1, shortTrend < -0.1, 25)
    + (if volTrend > 1.2 then 15 else 0)
    + Signed(change24h > 0.0, change24h < 0.0, 10)
  }

  /** The running `confidence` of `predict`: the four additions first, then the three subtractions. */
  method ComputeConfidence(momentum: real, shortTrend: real, volTrend: real, change24h: real)
    returns (confidence: int)
    ensures confidence == Confidence(momentum, shortTrend, volTrend, change24h)
    ensures -55 <= confidence <= 70
  {
    confidence := 0;
    if momentum > 0.0 { confidence := confidence + 20; }
    if shortTrend > 0.1 { confidence := confidence + 25; }
    if volTrend > 1.2 { confidence := confidence + 15; }
    if change24h > 0.0 { confidence := confidence + 10; }

    if momentum < 0.0 { confidence := confidence - 20; }
    if shortTrend < -0.1 { confidence := confidence - 25; }
    if change24h < 0.0 { confidence := confidence - 10; }
  }

  /** Every signal pointing up gives the top confidence. */
  lemma AllSignalsUp(momentum: real, shortTrend: real, volTrend: real, change24h: real)
    requires momentum > 0.0 && shortTrend > 0.1 && volTrend > 1.2 && change24h > 0.0
    ensures Confidence(momentum, shortTrend, volTrend, change24h) == 70
  {
  }

  function Classify(confidence: int): (d: Direction)
    ensures d == Up <==> confidence > 15
    ensures d == Down <==> confidence < -15
    ensures d == Neutral <==> -15 <= confidence <= 15
  {
    if confidence > 15 then Up else if confidence < -15 then Down else Neutral
  }

  function Abs(x: int): (r: nat)
    ensures r == x || r == -x
  {
    if x < 0 then -x else x
  }

  /** The direction the price actually took: more than 5 up, more than 5 down, or neither. */
  function ActualMove(diff: real): (d: Direction)
    ensures d == Up <==> diff > 5.0
    ensures d == Down <==> diff < -5.0
  {
    if diff > 5.0 then Up else if diff < -5.0 then Down else Neutral
  }

  /** A prediction is right when it names the move, or says neutral and the price moved less than 20. */
  function IsCorrect(predicted: Direction, diff: real): (ok: bool)
    ensures predicted == Neutral ==> (ok <==> -20.0 < diff < 20.0)
    ensures predicted == Up ==> (ok <==> diff > 5.0)
    ensures predicted == Down ==> (ok <==> diff < -5.0)
  {
    predicted == ActualMove(diff) || (predicted == Neutral && (if diff < 0.0 then -diff else diff) < 20.0)
  }

  /** The prediction `predict` records. */
  function MakePrediction(now: int, current: Ticker, recent: seq<Candle>, volTrend: real, shortTrend: real): (p: Prediction)
    ensures p.timestamp == now && p.verifyAt == now + 300000 && p.currentPrice == current.price
    ensures p.verification.None?
    ensures 0 <= p.confidence <= 70
    ensures p.prediction == Up ==> p.confidence > 15
    ensures p.prediction == Down ==> p.confidence > 15
    ensures p.prediction == Neutral ==> p.confidence <= 15
    ensures |recent| >= 1 ==>
      var c := Confidence(recent[|recent| - 1].close - recent[0].close, shortTrend, volTrend, current.change24h);
      p.prediction == Classify(c) && p.confidence == Abs(c)
    ensures |recent| == 0 ==>
      var c := Confidence(0.0, shortTrend, volTrend, current.change24h);
      p.prediction == Classify(c) && p.confidence == Abs(c)
  {
    var c := Confidence(Momentum(recent), shortTrend, volTrend, current.change24h);
    Prediction(now, current.price, Classify(c), Abs(c), now + VERIFY_DELAY_MS, None)
  }

  // ---------------------------------------------------------------------------
  // Settling predictions
  // ---------------------------------------------------------------------------

  /** `Date.now() >= p.verifyAt && !p.verified`. */
  predicate Due(p: Prediction, now: int)
  {
    now >= p.verifyAt && p.verification.None?
  }

  /** The prediction with the fields `verify` sets on it. */
  function Settle(p: Prediction, price: real): (q: Prediction)
    ensures q.verification.Some? && q.verification == Some(Verification(ActualMove(price - p.currentPrice),
      IsCorrect(p.prediction, price - p.currentPrice), price - p.currentPrice))
    ensures q.(verification := p.verification) == p
  {
    var diff := price - p.currentPrice;
    p.(verification := Some(Verification(ActualMove(diff), IsCorrect(p.prediction, diff), diff)))
  }

  /** Every due prediction settled against `price`, every other one left as it was. */
  function SettleAll(ps: seq<Prediction>, now: int, price: real): (r: seq<Prediction>)
    ensures |r| == |ps|
    ensures forall i :: 0 <= i < |ps| ==> r[i] == if Due(ps[i], now) then Settle(ps[i], price) else ps[i]
  {
    seq(|ps|, i requires 0 <= i < |ps| => if Due(ps[i], now) then Settle(ps[i], price) else ps[i])
  }

  /** `toVerify.length`. */
  function DueCount(ps: seq<Prediction>, now: int): (n: nat)
    ensures n <= |ps|
    ensures n == 0 <==> forall k :: 0 <= k < |ps| ==> !Due(ps[k], now)
  {
    if ps == [] then 0
    else DueCount(ps[..|ps| - 1], now) + (if Due(ps[|ps| - 1], now) then 1 else 0)
  }

  /** The scoreboard after one more result. */
  function Record(s: Stats, ok: bool): (r: Stats)
    ensures r.correct + r.wrong == s.correct + s.wrong + 1
    ensures ok ==> r.correct == s.correct + 1 && r.streak == s.streak + 1
    ensures !ok ==> r.wrong == s.wrong + 1 && r.streak == 0 && r.correct == s.correct
    ensures ok ==> r.wrong == s.wrong && r.bestStreak == (if r.streak > s.bestStreak then r.streak else s.bestStreak)
    ensures !ok ==> r.bestStreak == s.bestStreak
    ensures 0 <= s.streak <= s.bestStreak ==> 0 <= r.streak <= r.bestStreak && s.bestStreak <= r.bestStreak
  {
    if ok then
      var streak := s.streak + 1;
      Stats(s.correct + 1, s.wrong, streak, if streak > s.bestStreak then streak else s.bestStreak)
    else
      Stats(s.correct, s.wrong + 1, 0, s.bestStreak)
  }

  /** The scoreboard after settling, in order, every due prediction of `ps` against `price`. */
  function Tally(s: Stats, ps: seq<Prediction>, now: int, price: real): (r: Stats)
    ensures s.correct <= r.correct && s.wrong <= r.wrong
    ensures r.correct + r.wrong <= s.correct + s.wrong + |ps|
  {
    if ps == [] then s
    else
      var before := Tally(s, ps[..|ps| - 1], now, price);
      var p := ps[|ps| - 1];
      if Due(p, now) then Record(before, IsCorrect(p.prediction, price - p.currentPrice)) else before
  }

  /** Each settled prediction adds exactly one to `correct + wrong`. */
  lemma {:induction false} TallyCountsEachDueOnce(s: Stats, ps: seq<Prediction>, now: int, price: real)
    ensures Tally(s, ps, now, price).correct + Tally(s, ps, now, price).wrong == s.correct + s.wrong + DueCount(ps, now)
  {
    if ps != [] {
      TallyCountsEachDueOnce(s, ps[..|ps| - 1], now, price);
    }
  }

  /** The best streak never falls below the current streak, nor below its earlier value. */
  lemma {:induction false} TallyKeepsBestStreak(s: Stats, ps: seq<Prediction>, now: int, price: real)
    requires 0 <= s.streak <= s.bestStreak
    ensures 0 <= Tally(s, ps, now, price).streak <= Tally(s, ps, now, price).bestStreak
    ensures s.bestStreak <= Tally(s, ps, now, price).bestStreak
  {
    if ps != [] {
      TallyKeepsBestStreak(s, ps[..|ps| - 1], now, price);
    }
  }

  /** After settling, nothing is due any more: no prediction is ever counted twice. */
  lemma {:induction false} SettleAllLeavesNothingDue(ps: seq<Prediction>, now: int, price: real)
    ensures DueCount(SettleAll(ps, now, price), now) == 0
  {
    if ps != [] {
      var r := SettleAll(ps, now, price);
      var init := ps[..|ps| - 1];
      SettleAllLeavesNothingDue(init, now, price);
      assert r[..|r| - 1] == SettleAll(init, now, price);
    }
  }

  /** With nothing due, a verification round leaves the scoreboard as it is. */
  lemma {:induction false} TallyOfNothingDue(s: Stats, ps: seq<Prediction>, now: int, price: real)
    requires DueCount(ps, now) == 0
    ensures Tally(s, ps, now, price) == s
  {
    if ps != [] {
      TallyOfNothingDue(s, ps[..|ps| - 1], now, price);
    }
  }

  lemma TallyStep(s: Stats, ps: seq<Prediction>, i: nat, now: int, price: real)
    requires i < |ps|
    ensures Tally(s, ps[..i + 1], now, price) ==
      var before := Tally(s, ps[..i], now, price);
      if Due(ps[i], now) then Record(before, IsCorrect(ps[i].prediction, price - ps[i].currentPrice)) else before
  {
    assert ps[..i + 1][..i] == ps[..i];
  }

  /** The number of verified predictions whose `correct` field is `ok`. */
  function CountVerified(ps: seq<Prediction>, ok: bool): nat
  {
    if ps == [] then 0
    else CountVerified(ps[..|ps| - 1], ok) + Marks(ps[|ps| - 1], ok)
  }

  function Marks(p: Prediction, ok: bool): nat
  {
    if p.verification.Some? && p.verification.value.correct == ok then 1 else 0
  }

  lemma {:induction false} CountVerifiedUpdate(ps: seq<Prediction>, i: nat, q: Prediction, ok: bool)
    requires i < |ps|
    ensures CountVerified(ps[i := q], ok) == CountVerified(ps, ok) - Marks(ps[i], ok) + Marks(q, ok)
  {
    var n := |ps| - 1;
    if i == n {
      assert ps[i := q][..n] == ps[..n];
    } else {
      CountVerifiedUpdate(ps[..n], i, q, ok);
      assert ps[i := q][..n] == ps[..n][i := q];
    }
  }

  lemma CountVerifiedAppend(ps: seq<Prediction>, q: Prediction, ok: bool)
    ensures CountVerified(ps + [q], ok) == CountVerified(ps, ok) + Marks(q, ok)
  {
  }

  /** A record not yet verified leaves both counts as they were. */
  lemma UnverifiedAppendKeepsCounts(ps: seq<Prediction>, q: Prediction)
    requires q.verification.None?
    ensures CountVerified(ps + [q], true) == CountVerified(ps, true)
    ensures CountVerified(ps + [q], false) == CountVerified(ps, false)
  {
    CountVerifiedAppend(ps, q, true);
    CountVerifiedAppend(ps, q, false);
  }

  /** The record `predict` assembles from its running confidence is `MakePrediction`. */
  lemma RecordIsMakePrediction(now: int, current: Ticker, recent: seq<Candle>, volTrend: real, shortTrend: real,
                               confidence: int)
    requires confidence == Confidence(Momentum(recent), shortTrend, volTrend, current.change24h)
    ensures Prediction(now, current.price, Classify(confidence), Abs(confidence), now + VERIFY_DELAY_MS, None)
      == MakePrediction(now, current, recent, volTrend, shortTrend)
  {
  }

  // ---------------------------------------------------------------------------
  // The predictor state
  // ---------------------------------------------------------------------------

  class Predictor {
    var capital: real
    var predictions: seq<Prediction>
    var correct: int
    var wrong: int
    var streak: int
    var bestStreak: int

    function Scoreboard(): Stats
      reads this
    {
      Stats(correct, wrong, streak, bestStreak)
    }

    /**
     * The counters agree with the recorded predictions: `correct` and
     * `wrong` count the settled ones, and the streaks are bounded.
     */
    ghost predicate Valid()
      reads this
    {
      && 0 <= streak <= bestStreak <= correct
      && correct == CountVerified(predictions, true)
      && wrong == CountVerified(predictions, false)
    }

    constructor ()
      ensures Valid() && predictions == [] && Scoreboard() == Stats(0, 0, 0, 0) && capital == INITIAL_CAPITAL
    {
      capital := INITIAL_CAPITAL;
      predictions := [];
      correct, wrong, streak, bestStreak := 0, 0, 0, 0;
    }

    /**
     * `predict`. `current` is the price query's reply (a failure propagates
     * as an exception in the source), `history` the candles (empty when
     * their query failed), `volTrend` and `shortTrend` the derived ratios.
     */
    method Predict(now: int, current: Reply<Ticker>, history: seq<Candle>, volTrend: real, shortTrend: real)
      returns (outcome: PredictOutcome)
      requires Valid()
      modifies this
      ensures Valid() && Scoreboard() == old(Scoreboard()) && capital == old(capital)
      ensures current.Threw? ==> outcome == PriceUnavailable(current.message)
      ensures current.Returned? && |history| < HISTORY_WINDOW ==> outcome == InsufficientData
      ensures outcome.Predicted? <==> current.Returned? && |history| >= HISTORY_WINDOW
      ensures !outcome.Predicted? ==> predictions == old(predictions)
      ensures outcome.Predicted? ==>
        && outcome.pred == MakePrediction(now, current.data, history[|history| - HISTORY_WINDOW..], volTrend, shortTrend)
        && predictions == old(predictions) + [outcome.pred]
    {
      if current.Threw? {
        return PriceUnavailable(current.message);
      }
      if |history| < HISTORY_WINDOW {
        return InsufficientData;
      }
      var recent := history[|history| - HISTORY_WINDOW..];
      var momentum := Momentum(recent);
      var confidence := ComputeConfidence(momentum, shortTrend, volTrend, current.data.change24h);
      var prediction := Classify(confidence);
      var pred := Prediction(now, current.data.price, prediction, Abs(confidence), now + VERIFY_DELAY_MS, None);
      RecordIsMakePrediction(now, current.data, recent, volTrend, shortTrend, confidence);
      UnverifiedAppendKeepsCounts(predictions, pred);
      predictions := predictions + [pred];
      outcome := Predicted(pred);
    }

    /** One pass of the loop of `verify`: settles `predictions[i]` and scores it when it is due. */
    method SettleAt(i: nat, now: int, price: real)
      requires Valid() && i < |predictions|
      modifies this
      ensures Valid() && capital == old(capital)
      ensures Due(old(predictions)[i], now) ==>
        && predictions == old(predictions)[i := Settle(old(predictions)[i], price)]
        && Scoreboard() == Record(old(Scoreboard()), IsCorrect(old(predictions)[i].prediction, price - old(predictions)[i].currentPrice))
      ensures !Due(old(predictions)[i], now) ==> predictions == old(predictions) && Scoreboard() == old(Scoreboard())
    {
      var pred := predictions[i];
      if Due(pred, now) {
        var diff := price - pred.currentPrice;
        var ok := IsCorrect(pred.prediction, diff);
        var settled := pred.(verification := Some(Verification(ActualMove(diff), ok, diff)));
        CountVerifiedUpdate(predictions, i, settled, true);
        CountVerifiedUpdate(predictions, i, settled, false);
        predictions := predictions[i := settled];
        if ok {
          correct := correct + 1;
          streak := streak + 1;
          if streak > bestStreak { bestStreak := streak; }
        } else {
          wrong := wrong + 1;
          streak := 0;
        }
      }
    }

    /**
     * `verify`. Settles every prediction due at `now` against the current
     * price, in order, updating the counters for each; the price is asked
     * for only when something is due.
     */
    method Verify(now: int, current: Reply<Ticker>) returns (outcome: VerifyOutcome)
      requires Valid()
      modifies this
      ensures Valid() && capital == old(capital)
      ensures DueCount(old(predictions), now) == 0 ==> outcome == NothingDue
      ensures DueCount(old(predictions), now) > 0 && current.Threw? ==> outcome == VerifyPriceUnavailable(current.message)
      ensures outcome.Settled? <==> DueCount(old(predictions), now) > 0 && current.Returned?
      ensures !outcome.Settled? ==> predictions == old(predictions) && Scoreboard() == old(Scoreboard())
      ensures outcome.Settled? ==>
        && current.Returned?
        && outcome.count == DueCount(old(predictions), now) > 0
        && predictions == SettleAll(old(predictions), now, current.data.price)
        && Scoreboard() == Tally(old(Scoreboard()), old(predictions), now, current.data.price)
    {
      var due := DueCount(predictions, now);
      if due == 0 {
        return NothingDue;
      }
      if current.Threw? {
        return VerifyPriceUnavailable(current.message);
      }
      SettleDue(now, current.data.price);
      outcome := Settled(due);
    }

    /** The loop of `verify`: every due prediction, in order, settled against `price` and scored. */
    method SettleDue(now: int, price: real)
      requires Valid()
      modifies this
      ensures Valid() && capital == old(capital)
      ensures predictions == SettleAll(old(predictions), now, price)
      ensures Scoreboard() == Tally(old(Scoreboard()), old(predictions), now, price)
    {
      ghost var input := predictions;
      ghost var start := Scoreboard();
      var i := 0;
      while i < |predictions|
        invariant 0 <= i <= |predictions| == |input|
        invariant forall k :: 0 <= k < i ==>
          predictions[k] == if Due(input[k], now) then Settle(input[k], price) else input[k]
        invariant forall k :: i <= k < |input| ==> predictions[k] == input[k]
        invariant Scoreboard() == Tally(start, input[..i], now, price)
        invariant Valid() && capital == old(capital)
      {
        TallyStep(start, input, i, now, price);
        SettleAt(i, now, price);
        i := i + 1;
      }
      assert input[..i] == input;
      assert predictions == SettleAll(input, now, price);
    }
  }
}
