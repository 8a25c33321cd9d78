/**
 The account ledger of the casino as pure transitions (script.js,
 `CasinoGame.handleCreateAccount`, `handleLogin`, `addFunds`, `removeFunds`,
 and the debit and credit of `spin` and `displayResults`). The class
 `Casino.CasinoGame` updates its state in place and is specified by these.

 Amounts are exact `real`s. A form field that `parseFloat` reads as `NaN` is
 `None`.
 */
module Ledger {
  import opened Wrappers
  import Slots

  /** A stored record: a plaintext password and a balance. */
  datatype Account = Account(password: string, balance: real)

  /** The failures the source reports with `alert`. */
  datatype Error = DuplicateUsername | InvalidCredentials | InvalidAmount | InsufficientFunds

  datatype Result<T> = Ok(value: T) | Err(error: Error)

  type Users = map<string, Account>

  /** A login succeeds exactly when the name is registered and the stored
      password equals the given one, character for character. */
  predicate Authenticate(users: Users, username: string, password: string)
  {
    username in users && users[username].password == password
  }

  /**
   Names every plain JavaScript object inherits from `Object.prototype`
   (ECMAScript 2022, section 20.1.3). Looking one of them up on the user
   dictionary yields a truthy value even though no account was stored under it.
   */
  const ObjectPrototypeMembers: set<string> := {
    "constructor", "hasOwnProperty", "isPrototypeOf", "propertyIsEnumerable",
    "toLocaleString", "toString", "valueOf", "__proto__",
    "__defineGetter__", "__defineSetter__", "__lookupGetter__", "__lookupSetter__"
  }

  /** The duplicate test as written: `this.users[username]` is truthy. */
  predicate TakenAsWritten(users: Users, username: string)
  {
    username in users || username in ObjectPrototypeMembers
  }

  /** Account creation as written, with the inherited-name lookup. */
  function RegisterAsWritten(users: Users, username: string, password: string, initialFunds: real): (r: Result<Users>)
    ensures r.Err? <==> (username in users || username in ObjectPrototypeMembers)
    ensures r.Ok? ==> r.value == users[username := Account(password, initialFunds)]
  {
    if TakenAsWritten(users, username) then Err(DuplicateUsername)
    else Ok(users[username := Account(password, initialFunds)])
  }

  /** On an empty ledger, the name "toString" is refused as taken although
      nobody registered it, so no one can ever create or use that account;
      the own-key test accepts it. */
  lemma InheritedNameRefused()
    ensures RegisterAsWritten(map[], "toString", "secret", 10.0) == Err(DuplicateUsername)
    ensures Register(map[], "toString", "secret", 10.0) == Ok(map["toString" := Account("secret", 10.0)])
  {
  }

  /** Account creation: refused exactly when an account already has the name;
      otherwise exactly one record is added and no other record changes. */
  function Register(users: Users, username: string, password: string, initialFunds: real): (r: Result<Users>)
    ensures r.Err? <==> username in users
    ensures r.Err? ==> r.error == DuplicateUsername
    ensures r.Ok? ==> r.value.Keys == users.Keys + {username} && |r.value| == |users| + 1
    ensures r.Ok? ==> r.value[username] == Account(password, initialFunds)
    ensures r.Ok? ==> forall v :: v in users ==> v in r.value && r.value[v] == users[v]
  {
    if username in users then Err(DuplicateUsername)
    else Ok(users[username := Account(password, initialFunds)])
  }

  /** A newly created account can log in with its password, and every login
      that worked before creation still works. */
  lemma RegisterThenLogin(users: Users, username: string, password: string, initialFunds: real,
                          other: string, otherPassword: string)
    requires Register(users, username, password, initialFunds).Ok?
    ensures Authenticate(Register(users, username, password, initialFunds).value, username, password)
    ensures Authenticate(users, other, otherPassword)
        ==> Authenticate(Register(users, username, password, initialFunds).value, other, otherPassword)
  {
  }

  /** `addFunds`: refuses a `NaN` or non-positive amount, otherwise adds it. */
  function Deposit(balance: real, amount: Option<real>): (r: Result<real>)
    ensures r.Ok? <==> amount.Some? && amount.value > 0.0
    ensures r.Err? ==> r.error == InvalidAmount
    ensures r.Ok? ==> r.value - balance == amount.value && r.value > balance
  {
    if amount.None? || amount.value <= 0.0 then Err(InvalidAmount)
    else Ok(balance + amount.value)
  }

  /** `removeFunds`: refuses a `NaN` or non-positive amount first, then an
      amount over the balance; otherwise takes it out, never going below 0. */
  function Withdraw(balance: real, amount: Option<real>): (r: Result<real>)
    ensures r.Ok? <==> amount.Some? && 0.0 < amount.value <= balance
    ensures (amount.None? || amount.value <= 0.0) ==> r == Err(InvalidAmount)
    ensures amount.Some? && 0.0 < amount.value && balance < amount.value ==> r == Err(InsufficientFunds)
    ensures r.Ok? ==> balance - r.value == amount.value && 0.0 <= r.value < balance
  {
    if amount.None? || amount.value <= 0.0 then Err(InvalidAmount)
    else if amount.value > balance then Err(InsufficientFunds)
    else Ok(balance - amount.value)
  }

  /** What a spin credits: the payout, when it is positive. */
  function Credit(win: real): (c: real)
    ensures c >= 0.0 && (c == win || c == 0.0)
    ensures c > 0.0 <==> win > 0.0
  {
    if win > 0.0 then win else 0.0
  }

  /** `spin` followed by `displayResults`: refuses a stake over the balance,
      otherwise debits the stake and credits a positive payout. The bet per
      line is not checked for sign. */
  function SettleSpin(balance: real, betPerLine: real, win: real): (r: Result<real>)
    ensures r.Err? <==> Slots.Paylines * betPerLine > balance
    ensures r.Err? ==> r.error == InsufficientFunds
    ensures r.Ok? ==> r.value == balance - Slots.Paylines * betPerLine + Credit(win)
  {
    var totalBet := Slots.TotalBet(betPerLine);
    if totalBet > balance then Err(InsufficientFunds)
    else Ok(balance - totalBet + Credit(win))
  }

  /** A spin never takes a balance below 0, whatever the bet: an accepted stake
      is at most the balance and nothing negative is ever credited. */
  lemma SpinKeepsSolvent(balance: real, betPerLine: real, win: real)
    requires balance >= 0.0
    ensures SettleSpin(balance, betPerLine, win).Ok? ==> SettleSpin(balance, betPerLine, win).value >= 0.0
  {
  }

  /** From a non-negative balance, a negative bet per line is always accepted
      and raises the balance by at least five times its magnitude. */
  lemma NegativeBetGains(balance: real, betPerLine: real, win: real)
    requires balance >= 0.0 && betPerLine < 0.0
    ensures SettleSpin(balance, betPerLine, win).Ok?
    ensures SettleSpin(balance, betPerLine, win).value >= balance - Slots.Paylines * betPerLine > balance
  {
  }

  /** Something a logged-in player does to the balance. */
  datatype Op =
    | AddFunds(amount: Option<real>)
    | RemoveFunds(amount: Option<real>)
    | Spin(currentGame: Option<string>, betPerLine: real, draw: Slots.Draw, bonus4: bool, bonus5: bool)

  function SpinWin(op: Op): real
    requires op.Spin?
  {
    Slots.CalculateWin(Slots.GenerateSpinResults(op.currentGame, op.draw), op.betPerLine, op.bonus4, op.bonus5)
  }

  /** The outcome of one operation on a balance. */
  function Apply(balance: real, op: Op): Result<real>
  {
    match op
    case AddFunds(amount) => Deposit(balance, amount)
    case RemoveFunds(amount) => Withdraw(balance, amount)
    case Spin(_, betPerLine, _, _, _) => SettleSpin(balance, betPerLine, SpinWin(op))
  }

  /** The balance after one operation; a refused operation changes nothing. */
  function Step(balance: real, op: Op): real
  {
    match Apply(balance, op)
    case Ok(b) => b
    case Err(_) => balance
  }

  /** The balance after a sequence of operations. */
  function Replay(balance: real, ops: seq<Op>): real
    decreases |ops|
  {
    if ops == [] then balance else Replay(Step(balance, ops[0]), ops[1..])
  }

  /** Every operation of the sequence is accepted when it comes. */
  predicate AllAccepted(balance: real, ops: seq<Op>)
    decreases |ops|
  {
    ops == [] || (Apply(balance, ops[0]).Ok? && AllAccepted(Step(balance, ops[0]), ops[1..]))
  }

  /** The amount an accepted operation moves: a deposit in, a withdrawal out,
      a spin its stake out and its positive payout in. */
  function Delta(op: Op): real
  {
    match op
    case AddFunds(amount) => if amount.Some? then amount.value else 0.0
    case RemoveFunds(amount) => if amount.Some? then -amount.value else 0.0
    case Spin(_, betPerLine, _, _, _) => Credit(SpinWin(op)) - Slots.Paylines * betPerLine
  }

  function NetFlow(ops: seq<Op>): real
    decreases |ops|
  {
    if ops == [] then 0.0 else Delta(ops[0]) + NetFlow(ops[1..])
  }

  lemma StepKeepsSolvent(balance: real, op: Op)
    requires balance >= 0.0
    ensures Step(balance, op) >= 0.0
  {
    if op.Spin? {
      SpinKeepsSolvent(balance, op.betPerLine, SpinWin(op));
    }
  }

  /** A balance that starts at 0 or more stays at 0 or more through any
      sequence of deposits, withdrawals and spins, accepted or refused. */
  lemma {:induction false} ReplayKeepsSolvent(balance: real, ops: seq<Op>)
    requires balance >= 0.0
    ensures Replay(balance, ops) >= 0.0
    decreases |ops|
  {
    if ops != [] {
      StepKeepsSolvent(balance, ops[0]);
      ReplayKeepsSolvent(Step(balance, ops[0]), ops[1..]);
    }
  }

  /** When every operation is accepted, the final balance is the initial one
      plus the deposits and payouts minus the withdrawals and stakes. */
  lemma {:induction false} ReplayAccepted(balance: real, ops: seq<Op>)
    requires AllAccepted(balance, ops)
    ensures Replay(balance, ops) == balance + NetFlow(ops)
    decreases |ops|
  {
    if ops != [] {
      var next := Step(balance, ops[0]);
      assert next == balance + Delta(ops[0]);
      ReplayAccepted(next, ops[1..]);
    }
  }
}
