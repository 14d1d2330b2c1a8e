/**
 * The rules of the slot machine as values: symbols, spin outcomes, the
 * game state (credits and bet), and the pure functions that say what a spin
 * and a bet adjustment do to that state. The classes in module SlotMachine
 * are specified by these functions.
 */
module SlotGame {

  datatype Option<+T> = None | Some(value: T)

  /** A reel symbol: the text shown on the reel and its payout multiplier. */
  datatype Symbol = Symbol(displayCharacter: string, payoutMultiplier: int)

  /**
   * The result of one spin attempt. A declined spin carries no symbols
   * (the source's null array); creditsWon is the payout and totalCredits the
   * balance after the spin.
   */
  datatype SpinOutcome = SpinOutcome(resultingSymbols: Option<seq<Symbol>>, creditsWon: int, totalCredits: int)

  /** The mutable part of the game model: the player's credits and the current bet. */
  datatype GameState = GameState(credits: int, bet: int)

  /** What a player can do: store a bet, press +/- on the displayed bet, or spin with a given draw. */
  datatype Action =
    | SetBet(newBet: int)
    | AdjustBet(displayedBet: int, adjustment: int)
    | SpinWith(draw: seq<Symbol>)

  /** The credits a new game starts with. */
  const InitialCredits: int := 100

  /** The paytable the game is set up with: cherry, lemon, orange and star. */
  const GameSymbols: seq<Symbol> :=
    [Symbol("🍒", 10), Symbol("🍋", 5), Symbol("🍊", 3), Symbol("⭐", 1)]

  /** The number of reels the game is set up with. */
  const GameReelCount: nat := 3

  /** A spin may go ahead when the credits cover a positive bet. */
  predicate SpinAllowed(st: GameState)
  {
    st.credits >= st.bet && st.bet > 0
  }

  /** Every pair of drawn symbols shows the same text. */
  predicate AllIdentical(symbols: seq<Symbol>)
  {
    forall i, j :: 0 <= i < |symbols| && 0 <= j < |symbols| ==>
      symbols[i].displayCharacter == symbols[j].displayCharacter
  }

  /** No symbol in the draw has a negative multiplier. */
  predicate NonNegativePayouts(symbols: seq<Symbol>)
  {
    forall i :: 0 <= i < |symbols| ==> symbols[i].payoutMultiplier >= 0
  }

  /** The payout of a draw at a given bet: the first symbol's multiplier times the bet on a full match, else nothing. */
  function WinAmount(symbols: seq<Symbol>, bet: int): (win: int)
    requires |symbols| > 0
  {
    if AllIdentical(symbols) then symbols[0].payoutMultiplier * bet else 0
  }

  /** The outcome of a spin attempt from state st when the reels show draw. */
  function SpinResult(st: GameState, draw: seq<Symbol>): (outcome: SpinOutcome)
    requires SpinAllowed(st) ==> |draw| > 0
  {
    if !SpinAllowed(st) then
      SpinOutcome(None, 0, st.credits)
    else
      var afterBet := st.credits - st.bet;
      var win := WinAmount(draw, st.bet);
      SpinOutcome(Some(draw), win, afterBet + win)
  }

  /** The bet stored after pressing +/- on the displayed bet: the proposal if it lies in (0, credits], else the old bet. */
  function AdjustedBet(st: GameState, displayedBet: int, adjustment: int): (storedBet: int)
  {
    var proposedBet := displayedBet + adjustment;
    if proposedBet > 0 && proposedBet <= st.credits then proposedBet else st.bet
  }

  predicate CanStep(st: GameState, a: Action)
  {
    a.SpinWith? && SpinAllowed(st) ==> |a.draw| > 0
  }

  /** The state after one action. */
  function Step(st: GameState, a: Action): (next: GameState)
    requires CanStep(st, a)
  {
    match a
    case SetBet(newBet) => GameState(st.credits, newBet)
    case AdjustBet(displayedBet, adjustment) => GameState(st.credits, AdjustedBet(st, displayedBet, adjustment))
    case SpinWith(draw) => GameState(SpinResult(st, draw).totalCredits, st.bet)
  }

  /** Every spin in the session draws at least one symbol, one per reel. */
  predicate SpinsDraw(actions: seq<Action>)
  {
    forall k :: 0 <= k < |actions| && actions[k].SpinWith? ==> |actions[k].draw| > 0
  }

  /** No spin in the session draws a symbol with a negative multiplier. */
  predicate SpinsPayNonNegative(actions: seq<Action>)
  {
    forall k :: 0 <= k < |actions| && actions[k].SpinWith? ==> NonNegativePayouts(actions[k].draw)
  }

  /** The state after a session of actions, applied in order. */
  function Run(st: GameState, actions: seq<Action>): (final: GameState)
    requires SpinsDraw(actions)
    decreases |actions|
  {
    if actions == [] then st else Run(Step(st, actions[0]), actions[1..])
  }

  // ---------------------------------------------------------------------
  // Scoring

  /** Comparing every symbol with the first one decides a full match. */
  lemma MatchFirstIffAllIdentical(symbols: seq<Symbol>)
    requires |symbols| > 0
    ensures AllIdentical(symbols) <==>
      forall k :: 0 <= k < |symbols| ==> symbols[k].displayCharacter == symbols[0].displayCharacter
  {
  }

  /** A single symbol that differs from any other anywhere in the draw means no payout. */
  lemma MismatchPaysNothing(symbols: seq<Symbol>, bet: int, i: int, j: int)
    requires 0 <= i < |symbols| && 0 <= j < |symbols|
    requires symbols[i].displayCharacter != symbols[j].displayCharacter
    ensures !AllIdentical(symbols)
    ensures WinAmount(symbols, bet) == 0
  {
  }

  /** The payout is either nothing or exactly the first symbol's multiplier times the bet. */
  lemma WinAmountValues(symbols: seq<Symbol>, bet: int)
    requires |symbols| > 0
    ensures WinAmount(symbols, bet) == 0 || WinAmount(symbols, bet) == symbols[0].payoutMultiplier * bet
    ensures AllIdentical(symbols) ==> WinAmount(symbols, bet) == symbols[0].payoutMultiplier * bet
    ensures !AllIdentical(symbols) ==> WinAmount(symbols, bet) == 0
  {
  }

  /** With a positive bet and positive multipliers, a spin wins exactly when all symbols match. */
  lemma WinIffAllIdentical(symbols: seq<Symbol>, bet: int)
    requires |symbols| > 0 && bet > 0
    requires forall i :: 0 <= i < |symbols| ==> symbols[i].payoutMultiplier > 0
    ensures WinAmount(symbols, bet) > 0 <==> AllIdentical(symbols)
  {
  }

  /** A draw with non-negative multipliers never pays a negative amount at a non-negative bet. */
  lemma WinAmountNonNegative(symbols: seq<Symbol>, bet: int)
    requires |symbols| > 0 && bet >= 0 && NonNegativePayouts(symbols)
    ensures WinAmount(symbols, bet) >= 0
  {
  }

  // ---------------------------------------------------------------------
  // Spinning

  /** A declined spin carries no symbols, pays nothing, reports the unchanged balance and changes no state. */
  lemma DeclinedSpinChangesNothing(st: GameState, draw: seq<Symbol>)
    requires !SpinAllowed(st)
    ensures SpinResult(st, draw) == SpinOutcome(None, 0, st.credits)
    ensures Step(st, SpinWith(draw)) == st
  {
  }

  /**
   * An allowed spin shows the draw, takes the bet, adds back the payout,
   * reports the new balance, and keeps the bet.
   */
  lemma SpinAccounting(st: GameState, draw: seq<Symbol>)
    requires SpinAllowed(st) && |draw| > 0
    ensures SpinResult(st, draw).resultingSymbols == Some(draw)
    ensures SpinResult(st, draw).creditsWon == WinAmount(draw, st.bet)
    ensures SpinResult(st, draw).totalCredits == st.credits - st.bet + SpinResult(st, draw).creditsWon
    ensures Step(st, SpinWith(draw)) == GameState(SpinResult(st, draw).totalCredits, st.bet)
  {
  }

  /** The net change of an allowed spin is the loss of the bet, or the payout less the bet on a full match. */
  lemma SpinNetChange(st: GameState, draw: seq<Symbol>)
    requires SpinAllowed(st) && |draw| > 0
    ensures var after := Step(st, SpinWith(draw)).credits;
      (AllIdentical(draw) ==> after == st.credits + (draw[0].payoutMultiplier - 1) * st.bet) &&
      (!AllIdentical(draw) ==> after == st.credits - st.bet)
  {
  }

  /** A spin never drives the credits below zero: an allowed spin only takes a bet the credits cover. */
  lemma SpinKeepsCreditsNonNegative(st: GameState, draw: seq<Symbol>)
    requires st.credits >= 0
    requires |draw| > 0 && NonNegativePayouts(draw)
    ensures Step(st, SpinWith(draw)).credits >= 0
  {
    if SpinAllowed(st) {
      WinAmountNonNegative(draw, st.bet);
    }
  }

  // ---------------------------------------------------------------------
  // Betting

  /**
   * Pressing +/- stores the proposal exactly when it lies in (0, credits];
   * otherwise the stored bet stays as it was. Credits never change.
   */
  lemma AdjustBetGuard(st: GameState, displayedBet: int, adjustment: int)
    ensures var st' := Step(st, AdjustBet(displayedBet, adjustment));
      var proposedBet := displayedBet + adjustment;
      st'.credits == st.credits &&
      (0 < proposedBet <= st.credits ==> st'.bet == proposedBet) &&
      (!(0 < proposedBet <= st.credits) ==> st'.bet == st.bet)
  {
  }

  /** A bet adjustment never stores a bet outside [1, credits] unless that bet was already stored. */
  lemma AdjustBetStaysInRange(st: GameState, displayedBet: int, adjustment: int)
    ensures var st' := Step(st, AdjustBet(displayedBet, adjustment));
      st'.bet == st.bet || 0 < st'.bet <= st'.credits
  {
  }

  /** After an accepted adjustment the next spin is allowed. */
  lemma AcceptedBetAllowsSpin(st: GameState, displayedBet: int, adjustment: int)
    requires 0 < displayedBet + adjustment <= st.credits
    ensures SpinAllowed(Step(st, AdjustBet(displayedBet, adjustment)))
  {
  }

  // ---------------------------------------------------------------------
  // Sessions

  /** No action ever changes the credits except a spin. */
  lemma {:induction false} OnlySpinsChangeCredits(st: GameState, actions: seq<Action>)
    requires SpinsDraw(actions)
    requires forall k :: 0 <= k < |actions| ==> !actions[k].SpinWith?
    ensures Run(st, actions).credits == st.credits
    decreases |actions|
  {
    if actions != [] {
      OnlySpinsChangeCredits(Step(st, actions[0]), actions[1..]);
    }
  }

  /** Starting from non-negative credits, no session of bets and spins ever leaves the credits negative. */
  lemma {:induction false} SessionKeepsCreditsNonNegative(st: GameState, actions: seq<Action>)
    requires st.credits >= 0
    requires SpinsDraw(actions) && SpinsPayNonNegative(actions)
    ensures Run(st, actions).credits >= 0
    decreases |actions|
  {
    if actions != [] {
      var st' := Step(st, actions[0]);
      if actions[0].SpinWith? {
        SpinKeepsCreditsNonNegative(st, actions[0].draw);
      }
      SessionKeepsCreditsNonNegative(st', actions[1..]);
    }
  }

  /**
   * Once the stored bet is positive, pressing +/- and spinning keep it
   * positive: only proposals above zero are stored and spins keep the bet.
   */
  lemma {:induction false} BetStaysPositive(st: GameState, actions: seq<Action>)
    requires st.bet > 0
    requires SpinsDraw(actions)
    requires forall k :: 0 <= k < |actions| ==> !actions[k].SetBet?
    ensures Run(st, actions).bet > 0
    decreases |actions|
  {
    if actions != [] {
      BetStaysPositive(Step(st, actions[0]), actions[1..]);
    }
  }

  // ---------------------------------------------------------------------
  // The game's own paytable

  /** Every symbol of the game pays a positive multiple, so any draw from it pays a non-negative amount. */
  lemma GameSymbolsPayPositive(draw: seq<Symbol>)
    requires forall i :: 0 <= i < |draw| ==> draw[i] in GameSymbols
    ensures forall i :: 0 <= i < |draw| ==> draw[i].payoutMultiplier > 0
    ensures NonNegativePayouts(draw)
  {
  }

  /** Worked examples with the game's paytable: a cherry triple, a mixed draw, and a bet the credits do not cover. */
  lemma PaytableExamples()
    ensures SpinResult(GameState(100, 10), [GameSymbols[0], GameSymbols[0], GameSymbols[0]])
         == SpinOutcome(Some([GameSymbols[0], GameSymbols[0], GameSymbols[0]]), 100, 190)
    ensures SpinResult(GameState(100, 10), [GameSymbols[0], GameSymbols[1], GameSymbols[0]])
         == SpinOutcome(Some([GameSymbols[0], GameSymbols[1], GameSymbols[0]]), 0, 90)
    ensures SpinResult(GameState(5, 10), []) == SpinOutcome(None, 0, 5)
  {
    // The mixed draw loses because its first two symbols differ.
    MismatchPaysNothing([GameSymbols[0], GameSymbols[1], GameSymbols[0]], 10, 0, 1);
  }
}
