# Casino slot machine: ledger and spin engine

A model of the logic inside `CasinoGame` (script.js), a browser slot-machine
simulation. It covers two parts:

- **The account ledger.** The user dictionary maps a username to a plaintext
  password and a balance. On top of it sit account creation, login and
  logout, and adding and removing funds for the logged-in user.
- **The spin engine.** It computes the total bet (five paylines) and refuses
  a total bet over the balance. It draws three reels from the selected
  game's six symbols ("classic" is Classic Slots; any other game, or none,
  is Diamond Rush). Payouts come from a priority chain of positional rules
  (50, 5 or 3 lines) plus two independent bonus lines of 2 each. A positive
  payout is credited.

Files:

- `wrappers.dfy` holds `Option`.
- `slots.dfy` (module `Slots`) is the spin engine as pure functions.
- `ledger.dfy` (module `Ledger`) holds the balance and registration
  transitions as pure functions, with lemmas about sequences of operations.
- `casino.dfy` (module `Casino`) holds the class `CasinoGame`. Its methods
  update the dictionary and the session fields in place, and each method is
  specified by the `Ledger` and `Slots` functions.

Modelling choices:

- Balances and amounts are exact `real`s.
- A form field that would parse as `NaN` is `None`.
- `Math.random()` is replaced by inputs. A `Slots.Draw` holds three reel
  positions in `[0, 6)`, and two booleans say whether bonus paylines 4
  and 5 fire.
- The debit at the start of `spin` and the credit in `displayResults` run
  one after the other, in one method.
- The handlers that act on the logged-in user's balance require a logged-in
  user. The page shows those buttons only on the lobby and game screens,
  which appear only after login (script.js:88-92, 149-152).

Behaviour of script.js worth knowing:

- A bet per line is never checked for sign or for being a number. From a
  non-negative balance, a negative bet passes the funds check and raises the
  balance (`Ledger.NegativeBetGains`).
  A spin still never takes a non-negative balance below zero
  (`Ledger.SpinKeepsSolvent`), because only a positive payout is credited.
- The stake is subtracted directly. It does not go through the
  remove-funds checks.
- For a negative bet, the payout that `calculateWin` returns is at most 0,
  and it is returned unclamped. `displayResults` then shows "No match"
  without the amount and credits nothing (script.js:257-268). The model's
  `SpinResult` carries the computed value.
- Logout clears the user but not the selected game.

## Model

| member | source | states |
|---|---|---|
| `Casino.CasinoGame.constructor` | script.js:3-7 | starts from the stored dictionary, or an empty one when nothing is stored; no user and no game are selected |
| `Casino.CasinoGame.HandleLogin` | script.js:37-49 | succeeds iff the name is registered and its stored password equals the input exactly; on success the user becomes current, otherwise the current user is unchanged |
| `Casino.CasinoGame.HandleCreateAccount` | script.js:51-70 | refuses a registered name and leaves the dictionary unchanged; otherwise it adds exactly the new record (given password, balance = initial funds); it keeps every balance non-negative when the initial funds are non-negative |
| `Casino.CasinoGame.HandleLogout` | script.js:72-75 | no user is current afterwards |
| `Casino.CasinoGame.StartGame` | script.js:149-159 | the selected game becomes the given game type |
| `Casino.CasinoGame.GoToLobby` | script.js:94-97 | no game is selected afterwards |
| `Casino.CasinoGame.AddFunds` | script.js:114-125 | result is `Ledger.Deposit` of the current balance; on success only the current user's balance changes, to the returned value; on refusal nothing changes; every balance stays non-negative |
| `Casino.CasinoGame.RemoveFunds` | script.js:127-146 | result is `Ledger.Withdraw` of the current balance; on success only the current user's balance changes; on refusal nothing changes; every balance stays non-negative |
| `Casino.CasinoGame.DisplayResults` | script.js:244-273 | the payout is `CalculateWin` of the reels; exactly a positive payout is added to the current user's balance |
| `Casino.CasinoGame.Spin` | script.js:180-214 | the reels come from the selected game's symbols; a total bet over the balance is refused with nothing changed; otherwise the balance becomes balance - 5 x bet + positive payout; no other record changes; every balance stays non-negative |
| `Slots.TotalBet` | script.js:182 | total bet is five paylines of the bet per line, and has its sign |
| `Slots.DisplayedTotalBet` | script.js:166-170 | an unparsable bet field shows a total of 0, otherwise 5 x bet |
| `Slots.SymbolSets` | script.js:225-235 | each game has six pairwise distinct symbols, and the two sets share none |
| `Slots.Reels` | script.js:226-230 | three symbols, each from the set; two reels show the same symbol iff they drew the same position |
| `Slots.ReelsOnto` | script.js:224-242 | every arrangement of three symbols of a set is produced by some draw, so the draw inputs lose no outcome |
| `Slots.ClassicSlotsResults` | script.js:224-232 | three Classic Slots symbols; any two reels are equal iff their positions are equal |
| `Slots.DiamondRushResults` | script.js:234-242 | three Diamond Rush symbols; any two reels are equal iff their positions are equal |
| `Slots.GenerateSpinResults` | script.js:216-222 | "classic" gives Classic Slots symbols, any other game or none gives Diamond Rush symbols |
| `Slots.CalculateWin` | script.js:275-307 | all three equal pays 50 lines; the first two equal but not the third pays 5; only the last two equal pays 3; otherwise 0 (this includes reel 1 = reel 3 with a different reel 2); 2 lines are added per bonus |
| `Slots.PositionalMultiplier` | script.js:282-295 | the priority chain of paylines 1-3, defined once: exactly one of 0, 3, 5 or 50 lines |
| `Slots.WinDecomposes` | script.js:282-306 | payout = bet x (positional multiplier + 2 per triggered bonus) |
| `Slots.WinBounds` | script.js:282-306 | for a bet >= 0 the payout lies in [0, 54 x bet]; for a bet <= 0 it lies in [54 x bet, 0] |
| `Ledger.RegisterAsWritten` | script.js:57-65 | the duplicate test as written: refused iff the name is registered or is inherited from `Object.prototype` |
| `Ledger.InheritedNameRefused` | script.js:57-60 | on an empty dictionary the as-written test refuses "toString", but the own-key test accepts it |
| `Ledger.Register` | script.js:57-65 | refused iff the name is registered; otherwise exactly one key is added, with the given password and the initial funds, and every old record is kept |
| `Ledger.RegisterThenLogin` | script.js:42-65 | a new account can log in with its password; every earlier login still works |
| `Ledger.Deposit` | script.js:115-120 | refuses `NaN` or amount <= 0; otherwise the balance grows by exactly the amount |
| `Ledger.Withdraw` | script.js:128-141 | refuses `NaN` or amount <= 0 first, then amount > balance; otherwise the balance shrinks by exactly the amount and stays >= 0 |
| `Ledger.Credit` | script.js:257-260 | credits the payout when it is positive, else nothing |
| `Ledger.SettleSpin` | script.js:182-191 | refused iff 5 x bet > balance; otherwise balance - 5 x bet + positive payout |
| `Ledger.SpinKeepsSolvent` | script.js:185-191 | a spin never takes a non-negative balance below 0, whatever the bet |
| `Ledger.NegativeBetGains` | script.js:181-191 | from a non-negative balance, a negative bet is always accepted and raises the balance |
| `Ledger.StepKeepsSolvent` | script.js:114-146 | one deposit, withdrawal or spin keeps a non-negative balance non-negative |
| `Ledger.ReplayKeepsSolvent` | script.js:114-191 | any sequence of deposits, withdrawals and spins, accepted or refused, keeps a non-negative balance non-negative |
| `Ledger.ReplayAccepted` | script.js:114-191 | when every operation is accepted, final balance = initial + deposits - withdrawals - stakes + positive payouts |

## Left out

- Screens, event wiring, `alert` messages and `toFixed` formatting are left out. They only present results.
- The `localStorage` writes after each change are left out. The dictionary is handed to the constructor, or is absent.
- The spin delay, the spinning animation and the `isSpinning` flag are left out.
- Casino.CasinoGame.Spin: runs the debit and the delayed credit as one step, so it does not capture what can happen in the 2-3 s between them. Only the spin button is disabled then (script.js:195). Back-to-lobby and logout stay live, and the timer callback reads `currentGame` (script.js:217) and `currentUser` (script.js:259) only when it fires. So a Classic spin interrupted by going back to the lobby draws Diamond Rush symbols. A logout and a new login before the callback fires credit the payout to the new user; a logout alone makes the callback throw.
- The probability distribution of `Math.random` is left out. Draws and bonus flags are inputs, and every outcome is reachable (`Slots.ReelsOnto`).
- `parseFloat` is not modelled. A `NaN` bet per line, or `NaN` initial funds, would make a balance `NaN`; bets and initial funds are taken as numbers.
- IEEE doubles are not modelled: amounts are exact reals. This leaves out rounding, and also infinite amounts. `parseFloat("Infinity")` passes the amount guards (script.js:116, 131), and an added infinity makes the balance infinite.
- `winCount` is left out, because nothing reads it.
- Casino.CasinoGame.AddFunds: requires a logged-in user. With none, the source looks up the account named "null" (script.js:120): it adds funds to that account if one exists and throws otherwise. An invalid amount is refused before the lookup (script.js:116-119).
- Casino.CasinoGame.RemoveFunds: requires a logged-in user. With none, the source reads the balance of the account named "null" (script.js:129): it acts on that account if one exists and throws otherwise.
- Casino.CasinoGame.Spin: requires a logged-in user. With none, the source reads the balance of the account named "null" (script.js:183): it acts on that account if one exists and throws otherwise.
- Casino.CasinoGame.DisplayResults: requires a logged-in user. With none, a positive payout goes to the account named "null" (script.js:259) if one exists, and the source throws otherwise.
- Casino.CasinoGame.HandleCreateAccount: checks registered names only, not the names inherited from `Object.prototype`. The as-written check is `Ledger.RegisterAsWritten` (see Findings).

## Findings

| source | as written | input that shows it | evidently intended | confidence | as-written member | corrected member |
|---|---|---|---|---|---|---|
| script.js:57 | `if (this.users[username])` is also truthy for names that every plain object inherits from `Object.prototype` | create account "toString" (or "constructor", "__proto__", ...) on an empty dictionary: it is refused as "Username already exists!" | a name is taken only when an account was registered under it | high (not executed) | `Ledger.RegisterAsWritten` | `Ledger.Register` |
