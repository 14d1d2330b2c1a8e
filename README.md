# Slot machine game model

A Dafny model of the game logic of a three-reel slot machine
(`TragaMondeas.java`). The player has a credit balance, which starts at 100,
and a current bet. A spin goes ahead only when the bet is positive and the
credits cover it. An allowed spin takes the bet, draws one symbol from each
reel, and pays `multiplier × bet` when every reel shows the same symbol. The
game's paytable has four symbols: cherry ×10, lemon ×5, orange ×3 and star ×1.
The controller's "+" and "−" buttons propose the displayed bet plus or minus
one. The proposal is stored only if it lies in `(0, credits]`.

The project has two modules:

- `SlotGame` (`game.dfy`) holds the values. `Symbol`, `SpinOutcome` and
  `GameState` are datatypes, and `Action` is one player action. It also holds
  the functions that define the rules: `SpinAllowed`, `AllIdentical`,
  `WinAmount`, `SpinResult`, `AdjustedBet`, `Step` and `Run` (a whole session).
  The lemmas about these functions are in the same module.
- `SlotMachine` (`slot_machine.dfy`) holds the objects. These are `Reel`,
  `SlotMachineModel` (with the mutable `playerCredits` and `currentBet`) and
  the bet buttons of `SlotMachineController`, plus `StartGame`, which sets up
  the game. The bet methods and an allowed spin are tied by their `ensures` to
  `SlotGame.Step` applied to the old state. A declined spin is stated
  directly: the state is unchanged.

The random draw in `Reel.spin` is a nondeterministic choice of an index in
`[0, length)`. Only that range is constrained. The bet shown in the window
is an integer parameter of `ModifyBet`.

Three points of the code decide what the credit and bet lemmas can claim:

- `Symbol` (`TragaMondeas.java:48-55`) accepts any `int` multiplier. So the
  lemmas that keep credits non-negative take non-negative multipliers as a
  hypothesis. `GameSymbolsPayPositive` discharges it for the game's own
  paytable.
- The +/− guard in `modifyBet` checks the displayed bet plus the adjustment.
  A refused adjustment leaves the stored bet as it was, and a losing spin can
  leave the bet above the remaining credits. So the stored bet is not kept
  within `[1, credits]`. What holds is this: each adjustment stores either the
  previous bet or a bet in `(0, credits]` (`AdjustBetStaysInRange`). A bet
  that starts positive stays positive through any +/− presses and spins
  (`BetStaysPositive`).
- `allSymbolsIdentical` compares each symbol's display character with the
  first one's. `MatchFirstIffAllIdentical` shows that this is the same as
  pairwise equality of all display characters.

## Model

| member | source | states |
|---|---|---|
| `SlotMachine.Reel.Spin` | TragaMondeas.java:79-82 | given a non-empty symbol array, the drawn symbol is one of its elements, i.e. lies at some index in `[0, length)` |
| `SlotMachine.Reel.constructor` | TragaMondeas.java:72-74 | the reel keeps the given symbol array |
| `SlotMachine.SlotMachineModel.constructor` | TragaMondeas.java:88-95 | a new model holds the given reels, 100 credits and a bet of 0 |
| `SlotMachine.SlotMachineModel.SetCurrentBet` | TragaMondeas.java:97-99 | stores any bet without validation; the credits are unchanged |
| `SlotMachine.SlotMachineModel.GetPlayerCredits` | TragaMondeas.java:101-103 | returns the credit balance of the model's state |
| `SlotMachine.SlotMachineModel.IsSpinAllowed` | TragaMondeas.java:108-110 | true exactly when the credits are at least the bet and the bet is positive |
| `SlotMachine.SlotMachineModel.ExecuteSpin` | TragaMondeas.java:115-131 | a declined spin returns no symbols, 0 won and the old balance, and changes nothing. An allowed spin returns one symbol per reel, the i-th drawn from reel i. Its outcome and new state are `SpinResult` and `Step` of the old state and that draw: credits minus bet plus payout, bet unchanged, and the returned total equals the new credits. Credits stay non-negative when every reel's multipliers are non-negative |
| `SlotMachine.SlotMachineModel.CalculateWinAmount` | TragaMondeas.java:136-139 | the payout equals `WinAmount` of the drawn symbols at the current bet |
| `SlotMachine.SlotMachineModel.AllSymbolsIdentical` | TragaMondeas.java:141-147 | the early-exit scan against the first symbol returns true exactly when every pair of symbols shows the same text |
| `SlotMachine.SlotMachineController.constructor` | TragaMondeas.java:303-308 | construction runs `refreshView` (lines 347-350), which stores the displayed bet in the model. The new state is `Step` of a `SetBet` action, so the credits are unchanged |
| `SlotMachine.SlotMachineController.ModifyBet` | TragaMondeas.java:339-345 | the adjustment is accepted exactly when `0 < displayed + adjustment <= credits`. The model's new state is `Step` of an `AdjustBet` action: the proposal is stored if accepted, otherwise nothing changes |
| `SlotMachine.StartGame` | TragaMondeas.java:16-42 | sets up 3 reels sharing the four-symbol paytable and a model with 100 credits and bet 1. Every reel can draw, and every multiplier is non-negative |
| `SlotGame.MatchFirstIffAllIdentical` | TragaMondeas.java:141-147 | comparing each symbol with the first decides the same thing as pairwise equality of all symbols |
| `SlotGame.MismatchPaysNothing` | TragaMondeas.java:144 | any single pair of differing symbols, anywhere in the draw, means no full match and a payout of 0 |
| `SlotGame.WinAmountValues` | TragaMondeas.java:136-139 | the payout is either 0 or the first symbol's multiplier times the bet, and never anything else. It is the latter on a full match and 0 otherwise |
| `SlotGame.WinIffAllIdentical` | TragaMondeas.java:136-139 | with a positive bet and positive multipliers, the payout is positive exactly when all symbols match |
| `SlotGame.WinAmountNonNegative` | TragaMondeas.java:137-138 | non-negative multipliers and bet give a non-negative payout |
| `SlotGame.DeclinedSpinChangesNothing` | TragaMondeas.java:116-118 | when a spin is not allowed, the outcome has no symbols, 0 won and the unchanged credits, and the state is unchanged |
| `SlotGame.SpinAccounting` | TragaMondeas.java:120-130 | an allowed spin shows the draw and pays `WinAmount`. The new total is the old credits minus the bet plus the payout, and the bet is kept |
| `SlotGame.SpinNetChange` | TragaMondeas.java:120-128 | an allowed spin changes the credits by `(multiplier - 1) × bet` on a full match and by `-bet` otherwise |
| `SlotGame.SpinKeepsCreditsNonNegative` | TragaMondeas.java:108-128 | from non-negative credits, with non-negative multipliers, a spin leaves non-negative credits, because the bet is only deducted when the credits cover it |
| `SlotGame.AdjustBetGuard` | TragaMondeas.java:339-345 | a bet adjustment stores the proposal when it lies in `(0, credits]` and otherwise keeps the old bet. Credits never change |
| `SlotGame.AdjustBetStaysInRange` | TragaMondeas.java:341-342 | after an adjustment, the stored bet is either the previous one or lies in `(0, credits]` |
| `SlotGame.AcceptedBetAllowsSpin` | TragaMondeas.java:341-342 | after an accepted adjustment the next spin is allowed |
| `SlotGame.OnlySpinsChangeCredits` | TragaMondeas.java:339-345 | a session of +/− presses (`modifyBet`) and stored bets (`setCurrentBet`, lines 97-99), with no spins, leaves the credits unchanged |
| `SlotGame.BetStaysPositive` | TragaMondeas.java:341-342 | from a positive bet, any session of +/− presses and spins keeps the stored bet positive, since only proposals above 0 are stored and spins keep the bet |
| `SlotGame.SessionKeepsCreditsNonNegative` | TragaMondeas.java:115-131 | from non-negative credits, with non-negative multipliers, no session of bets and spins ever makes the credits negative |
| `SlotGame.GameSymbolsPayPositive` | TragaMondeas.java:19-24 | every symbol of the game's paytable pays a positive multiplier, so any draw from it has non-negative payouts |
| `SlotGame.PaytableExamples` | TragaMondeas.java:136-139 | with the game's paytable, credits 100 and bet 10, a cherry triple pays 100 and leaves 190, and a cherry-lemon-cherry draw pays 0 and leaves 90. Credits 5 with bet 10 declines the spin and leaves 5 |

## Left out

- The Swing view (`SlotMachineView`): windows, labels, fonts, buttons and result messages are presentation only.
- The `SwingWorker` delay in `handleSpin`, the thread pool in `main` and the empty `GameEngineThread.run`: no game logic, and no concurrent access to the model.
- `java.util.Random`: the draw is a nondeterministic index in `[0, length)`. Its uniform distribution is not modelled.
- `Integer.parseInt` of the bet text, with its fallback to 0: the displayed bet is an integer parameter.
- Java's 32-bit `int` arithmetic: credits, bets and `multiplier × bet` are unbounded integers, so overflow and wrap-around are not modelled.
- SlotMachine.SlotMachineModel.ExecuteSpin: requires, when the spin is allowed, at least one reel and a non-empty symbol array on every reel. With no reels the source deducts the bet and then fails on `symbols[0]`. With an empty reel `Random.nextInt(0)` throws. Neither exception is modelled, and the application always builds three reels of four symbols.
- The outcome's `resultingSymbols` is a sequence value rather than the fresh array the source returns, and Java's `null` for a declined spin is `None`.
- `SpinOutcome` getters and the `Symbol` getters are datatype field accesses.
