/**
 * The slot machine's objects: reels that draw a symbol, the game model that
 * holds the credits and the bet and runs a spin, and the controller's bet
 * buttons. Each state change is specified by the functions of SlotGame.
 */
module SlotMachine {
  import opened SlotGame

  /** One reel: draws one of its symbols. */
  class Reel {
    const availableSymbols: array<Symbol>

    constructor (availableSymbols: array<Symbol>)
      ensures this.availableSymbols == availableSymbols
    {
      this.availableSymbols := availableSymbols;
    }

    /**
     * Draws a symbol at some index in [0, length); which index is left open,
     * standing for the uniform random draw.
     */
    method Spin() returns (symbol: Symbol)
      requires availableSymbols.Length > 0
      ensures symbol in availableSymbols[..]
    {
      var index :| 0 <= index < availableSymbols.Length;
      symbol := availableSymbols[index];
    }
  }

  /** The game model: the reels, the current bet and the player's credits. */
  class SlotMachineModel {
    const gameReels: array<Reel>
    var currentBet: int
    var playerCredits: int

    /** The credits and the bet as a value. */
    function State(): (st: GameState)
      reads this
    {
      GameState(playerCredits, currentBet)
    }

    /** Every reel has a symbol to draw, and there is at least one reel. */
    ghost predicate ReelsCanDraw()
      reads gameReels
    {
      gameReels.Length > 0 &&
      forall i :: 0 <= i < gameReels.Length ==> gameReels[i].availableSymbols.Length > 0
    }

    /** No symbol on any reel has a negative multiplier. */
    ghost predicate ReelsPayNonNegative()
      reads gameReels, set i | 0 <= i < gameReels.Length :: gameReels[i].availableSymbols
    {
      forall i, j :: 0 <= i < gameReels.Length && 0 <= j < gameReels[i].availableSymbols.Length ==>
        gameReels[i].availableSymbols[j].payoutMultiplier >= 0
    }

    /** A new model starts with 100 credits and a bet of zero. */
    constructor (gameReels: array<Reel>)
      ensures this.gameReels == gameReels
      ensures State() == GameState(InitialCredits, 0)
    {
      this.gameReels := gameReels;
      currentBet := 0;
      playerCredits := InitialCredits;
    }

    /** Stores any bet without validation; the credits stay as they are. */
    method SetCurrentBet(newBet: int)
      modifies this
      ensures State() == Step(old(State()), SetBet(newBet))
      ensures currentBet == newBet && playerCredits == old(playerCredits)
    {
      currentBet := newBet;
    }

    /** Reports the credit balance. */
    function GetPlayerCredits(): (credits: int)
      reads this
      ensures credits == State().credits
    {
      playerCredits
    }

    /** A spin may go ahead exactly when the credits cover a positive bet. */
    predicate IsSpinAllowed()
      reads this
      ensures IsSpinAllowed() <==> playerCredits >= currentBet && currentBet > 0
    {
      SpinAllowed(State())
    }

    /**
     * Runs one spin. A declined spin returns an empty outcome and changes
     * nothing. An allowed spin takes the bet, draws one symbol from each
     * reel in order, adds the payout and returns the new balance.
     */
    method ExecuteSpin() returns (outcome: SpinOutcome)
      requires IsSpinAllowed() ==> ReelsCanDraw()
      modifies this
      ensures currentBet == old(currentBet)
      ensures playerCredits == outcome.totalCredits
      ensures !old(IsSpinAllowed()) ==>
        outcome == SpinOutcome(None, 0, old(playerCredits)) && State() == old(State())
      ensures old(IsSpinAllowed()) ==>
        && outcome.resultingSymbols.Some?
        && |outcome.resultingSymbols.value| == gameReels.Length
        && (forall i :: 0 <= i < gameReels.Length ==>
              outcome.resultingSymbols.value[i] in gameReels[i].availableSymbols[..])
        && outcome == SpinResult(old(State()), outcome.resultingSymbols.value)
        && State() == Step(old(State()), SpinWith(outcome.resultingSymbols.value))
      ensures old(playerCredits) >= 0 && ReelsPayNonNegative() ==> playerCredits >= 0
    {
      if !IsSpinAllowed() {
        return SpinOutcome(None, 0, playerCredits);
      }
      ghost var before := State();

      playerCredits := playerCredits - currentBet;
      var spinResults := new Symbol[gameReels.Length];

      for i := 0 to gameReels.Length
        invariant playerCredits == before.credits - before.bet && currentBet == before.bet
        invariant forall k :: 0 <= k < i ==> spinResults[k] in gameReels[k].availableSymbols[..]
      {
        spinResults[i] := gameReels[i].Spin();
      }

      var winAmount := CalculateWinAmount(spinResults);
      playerCredits := playerCredits + winAmount;

      if before.credits >= 0 && ReelsPayNonNegative() {
        assert NonNegativePayouts(spinResults[..]);
        SpinKeepsCreditsNonNegative(before, spinResults[..]);
      }

      outcome := SpinOutcome(Some(spinResults[..]), winAmount, playerCredits);
    }

    /** The payout of a draw at the current bet. */
    method CalculateWinAmount(spinResults: array<Symbol>) returns (winAmount: int)
      requires spinResults.Length > 0
      ensures winAmount == WinAmount(spinResults[..], currentBet)
    {
      var identical := AllSymbolsIdentical(spinResults);
      winAmount := if identical then spinResults[0].payoutMultiplier * currentBet else 0;
    }

    /** Decides whether every symbol shows the same text by comparing each with the first. */
    static method AllSymbolsIdentical(symbols: array<Symbol>) returns (identical: bool)
      requires symbols.Length > 0
      ensures identical <==> AllIdentical(symbols[..])
    {
      var firstSymbol := symbols[0].displayCharacter;
      for i := 0 to symbols.Length
        invariant forall k :: 0 <= k < i ==> symbols[k].displayCharacter == firstSymbol
      {
        if symbols[i].displayCharacter != firstSymbol {
          assert symbols[..][i].displayCharacter != symbols[..][0].displayCharacter;
          return false;
        }
      }
      MatchFirstIffAllIdentical(symbols[..]);
      return true;
    }
  }

  /** The controller's part of the game that holds logic: the bet buttons. */
  class SlotMachineController {
    const gameModel: SlotMachineModel

    /** Stores the bet shown at start-up in the model; the credits stay as they are. */
    constructor (gameModel: SlotMachineModel, displayedBet: int)
      modifies gameModel
      ensures this.gameModel == gameModel
      ensures gameModel.State() == Step(old(gameModel.State()), SetBet(displayedBet))
    {
      this.gameModel := gameModel;
      new;
      gameModel.SetCurrentBet(displayedBet);
    }

    /**
     * Applies +1 or -1 to the displayed bet. The proposal is stored, and
     * shown, only when it lies in (0, credits]; otherwise nothing changes.
     */
    method ModifyBet(displayedBet: int, adjustment: int) returns (accepted: bool)
      modifies gameModel
      ensures accepted <==> 0 < displayedBet + adjustment <= old(gameModel.playerCredits)
      ensures gameModel.State() == Step(old(gameModel.State()), AdjustBet(displayedBet, adjustment))
    {
      var proposedBet := displayedBet + adjustment;
      accepted := proposedBet > 0 && proposedBet <= gameModel.GetPlayerCredits();
      if accepted {
        gameModel.SetCurrentBet(proposedBet);
      }
    }
  }

  /**
   * Sets up a game as the application does: four symbols shared by three
   * reels, a fresh model, and a controller that stores the displayed bet of 1.
   */
  method StartGame() returns (controller: SlotMachineController)
    ensures fresh(controller) && fresh(controller.gameModel)
    ensures controller.gameModel.State() == GameState(InitialCredits, 1)
    ensures controller.gameModel.gameReels.Length == GameReelCount
    ensures forall i :: 0 <= i < GameReelCount ==>
      controller.gameModel.gameReels[i].availableSymbols[..] == GameSymbols
    ensures controller.gameModel.ReelsCanDraw() && controller.gameModel.ReelsPayNonNegative()
  {
    var gameSymbols := new Symbol[4] [GameSymbols[0], GameSymbols[1], GameSymbols[2], GameSymbols[3]];
    var reel0 := new Reel(gameSymbols);
    var reel1 := new Reel(gameSymbols);
    var reel2 := new Reel(gameSymbols);
    var gameReels := new Reel[3] [reel0, reel1, reel2];
    var gameModel := new SlotMachineModel(gameReels);
    controller := new SlotMachineController(gameModel, 1);
    assert gameSymbols[..] == GameSymbols;
  }
}
