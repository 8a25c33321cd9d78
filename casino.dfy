/**
 The `CasinoGame` object of script.js without its screens: the user
 dictionary it updates in place, the logged-in user and the selected game.
 Each handler takes the parsed form values as parameters instead of reading
 them from the page, and reports with a `Result` what the source reports with
 `alert`. A spin's debit and its delayed credit run as one operation.
 */
module Casino {
  import opened Wrappers
  import opened Ledger
  import Slots

  /** What a spin shows: the three reels and the computed payout. */
  datatype SpinResult = SpinResult(reels: seq<string>, payout: real)

  class CasinoGame {
    var users: Users
    var currentUser: Option<string>
    var currentGame: Option<string>

    /** A logged-in user always has a record (records are never removed). */
    ghost predicate Valid()
      reads this
    {
      currentUser.Some? ==> currentUser.value in users
    }

    /** Every balance is at least 0. Account creation does not check the
        initial funds, so this holds only as long as they were not negative. */
    ghost predicate Solvent()
      reads this
    {
      forall u :: u in users ==> users[u].balance >= 0.0
    }

    /** The logged-in user's balance. */
    function Balance(): real
      reads this
      requires Valid() && currentUser.Some?
    {
      users[currentUser.value].balance
    }

    /** Starts with the stored dictionary, or an empty one when nothing is stored. */
    constructor (stored: Option<Users>)
      ensures Valid()
      ensures users == (if stored.Some? then stored.value else map[])
      ensures currentUser == None && currentGame == None
    {
      users := if stored.Some? then stored.value else map[];
      currentUser := None;
      currentGame := None;
    }

    method HandleLogin(username: string, password: string) returns (outcome: Result<()>)
      requires Valid()
      modifies this`currentUser
      ensures Valid()
      ensures outcome.Ok? <==> Authenticate(users, username, password)
      ensures outcome.Ok? ==> currentUser == Some(username)
      ensures outcome.Err? ==> outcome.error == InvalidCredentials && currentUser == old(currentUser)
    {
      if username in users && users[username].password == password {
        currentUser := Some(username);
        outcome := Ok(());
      } else {
        outcome := Err(InvalidCredentials);
      }
    }

    /** Creates an account unless the name is registered; the duplicate test
        looks at registered names only (see `Ledger.RegisterAsWritten`). */
    method HandleCreateAccount(username: string, password: string, initialFunds: real)
      returns (outcome: Result<()>)
      requires Valid()
      modifies this`users
      ensures Valid()
      ensures match Register(old(users), username, password, initialFunds)
        case Ok(m) => outcome == Ok(()) && users == m
        case Err(e) => outcome == Err(e) && users == old(users)
      ensures old(Solvent()) && initialFunds >= 0.0 ==> Solvent()
    {
      if username in users {
        return Err(DuplicateUsername);
      }
      users := users[username := Account(password, initialFunds)];
      outcome := Ok(());
    }

    /** Logs out; the selected game is left as it was. */
    method HandleLogout()
      requires Valid()
      modifies this`currentUser
      ensures Valid() && currentUser == None
    {
      currentUser := None;
    }

    method StartGame(gameType: string)
      requires Valid()
      modifies this`currentGame
      ensures Valid() && currentGame == Some(gameType)
    {
      currentGame := Some(gameType);
    }

    method GoToLobby()
      requires Valid()
      modifies this`currentGame
      ensures Valid() && currentGame == None
    {
      currentGame := None;
    }

    /** Adds a valid amount to the logged-in user's balance; the returned
        value is the new balance. */
    method AddFunds(amount: Option<real>) returns (outcome: Result<real>)
      requires Valid() && currentUser.Some?
      modifies this`users
      ensures Valid() && users.Keys == old(users).Keys
      ensures outcome == Deposit(old(Balance()), amount)
      ensures outcome.Ok? ==> users == old(users)[currentUser.value := old(users)[currentUser.value].(balance := outcome.value)]
      ensures outcome.Err? ==> users == old(users)
      ensures forall v :: v in users && v != currentUser.value ==> users[v] == old(users)[v]
      ensures old(Solvent()) ==> Solvent()
    {
      if amount.None? || amount.value <= 0.0 {
        return Err(InvalidAmount);
      }
      var user := currentUser.value;
      users := users[user := users[user].(balance := users[user].balance + amount.value)];
      outcome := Ok(users[user].balance);
    }

    /** Takes a valid amount no larger than the balance out of the logged-in
        user's balance; the returned value is the new balance. */
    method RemoveFunds(amount: Option<real>) returns (outcome: Result<real>)
      requires Valid() && currentUser.Some?
      modifies this`users
      ensures Valid() && users.Keys == old(users).Keys
      ensures outcome == Withdraw(old(Balance()), amount)
      ensures outcome.Ok? ==> users == old(users)[currentUser.value := old(users)[currentUser.value].(balance := outcome.value)]
      ensures outcome.Err? ==> users == old(users)
      ensures forall v :: v in users && v != currentUser.value ==> users[v] == old(users)[v]
      ensures old(Solvent()) ==> Solvent()
    {
      var user := currentUser.value;
      var currentBalance := users[user].balance;
      if amount.None? || amount.value <= 0.0 {
        return Err(InvalidAmount);
      }
      if amount.value > currentBalance {
        return Err(InsufficientFunds);
      }
      users := users[user := users[user].(balance := users[user].balance - amount.value)];
      outcome := Ok(users[user].balance);
    }

    /** Shows the reels and credits a positive payout to the logged-in user. */
    method DisplayResults(reels: seq<string>, betPerLine: real, bonus4: bool, bonus5: bool) returns (win: real)
      requires Valid() && currentUser.Some? && |reels| == 3
      modifies this`users
      ensures Valid() && users.Keys == old(users).Keys
      ensures win == Slots.CalculateWin(reels, betPerLine, bonus4, bonus5)
      ensures users == old(users)[currentUser.value := old(users)[currentUser.value].(balance := old(Balance()) + Credit(win))]
    {
      win := Slots.CalculateWin(reels, betPerLine, bonus4, bonus5);
      var user := currentUser.value;
      if win > 0.0 {
        users := users[user := users[user].(balance := users[user].balance + win)];
      }
    }

    /** One spin of the selected game: refuses a total bet over the balance,
        otherwise debits it, draws the reels and credits the payout. */
    method Spin(betPerLine: real, draw: Slots.Draw, bonus4: bool, bonus5: bool) returns (outcome: Result<SpinResult>)
      requires Valid() && currentUser.Some?
      modifies this`users
      ensures Valid() && users.Keys == old(users).Keys
      ensures var reels := Slots.GenerateSpinResults(currentGame, draw);
        var win := Slots.CalculateWin(reels, betPerLine, bonus4, bonus5);
        match SettleSpin(old(Balance()), betPerLine, win)
        case Err(e) => outcome == Err(e) && users == old(users)
        case Ok(b) =>
          (outcome == Ok(SpinResult(reels, win))
           && users == old(users)[currentUser.value := old(users)[currentUser.value].(balance := b)])
      ensures old(Solvent()) ==> Solvent()
    {
      var user := currentUser.value;
      var totalBet := Slots.TotalBet(betPerLine);
      var balance := users[user].balance;
      if totalBet > balance {
        return Err(InsufficientFunds);
      }
      users := users[user := users[user].(balance := users[user].balance - totalBet)];
      var reels := Slots.GenerateSpinResults(currentGame, draw);
      var win := DisplayResults(reels, betPerLine, bonus4, bonus5);
      outcome := Ok(SpinResult(reels, win));
      if old(Solvent()) {
        SpinKeepsSolvent(old(Balance()), betPerLine, win);
      }
    }
  }

  /** A session: create an account with 100, log in, play Diamond Rush at 10
      per line and hit three diamonds without bonuses; 50 is staked and 500
      paid, leaving 550. */
  method DiamondRushJackpot()
  {
    var game := new CasinoGame(None);
    var created := game.HandleCreateAccount("ann", "pw", 100.0);
    assert created == Ok(());
    var login := game.HandleLogin("ann", "pw");
    assert login.Ok?;
    game.StartGame("diamond");
    var spun := game.Spin(10.0, Slots.Draw(0, 0, 0), false, false);
    assert spun.Ok? && spun.value.payout == 500.0;
    assert game.Balance() == 550.0;
    var refused := game.RemoveFunds(Some(600.0));
    assert refused == Err(InsufficientFunds) && game.Balance() == 550.0;
  }
}
