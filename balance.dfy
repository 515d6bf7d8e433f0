/** The balance rules shared by every account class that keeps a balance
    (SavingAccount, SalaryAccount and FDAccount in the design that follows
    Liskov substitution; SavingsAccount and CurrentAccount in the one that
    violates it). Balances are Java doubles in the source; here they are
    exact reals. */
module Balance {

  /** How an account answered a deposit or a withdrawal. The source prints
      a line for each branch; the model returns which branch was taken. */
  datatype Verdict = Accepted | Rejected

  /** The fixed script every client applies: deposit 500, then withdraw 200. */
  const ScriptDeposit: real := 500.0
  const ScriptWithdrawal: real := 200.0

  /** The guard of every `deposit`: only a strictly positive amount is taken. */
  predicate DepositAccepted(amount: real) {
    amount > 0.0
  }

  /** The guard of every `withdraw`: a positive amount no larger than the balance. */
  predicate WithdrawalAccepted(balance: real, amount: real) {
    0.0 < amount <= balance
  }

  /** How `deposit(amount)` is answered. */
  function DepositVerdict(amount: real): (v: Verdict) {
    if DepositAccepted(amount) then Accepted else Rejected
  }

  /** How `withdraw(amount)` is answered on an account holding `balance`. */
  function WithdrawalVerdict(balance: real, amount: real): (v: Verdict) {
    if WithdrawalAccepted(balance, amount) then Accepted else Rejected
  }

  /** The balance after `deposit(amount)`. A deposit never lowers the
      balance, it changes it exactly when the amount is positive, and it
      keeps a non-negative balance non-negative. */
  function AfterDeposit(balance: real, amount: real): (r: real)
    ensures r >= balance
    ensures r != balance <==> amount > 0.0
    ensures amount > 0.0 ==> r - balance == amount
    ensures balance >= 0.0 ==> r >= 0.0
  {
    if DepositAccepted(amount) then balance + amount else balance
  }

  /** The balance after `withdraw(amount)`. A withdrawal never raises the
      balance, it changes it exactly when `0 < amount <= balance`, and one
      that goes through never leaves the balance negative. */
  function AfterWithdrawal(balance: real, amount: real): (r: real)
    ensures r <= balance
    ensures r != balance <==> 0.0 < amount <= balance
    ensures r != balance ==> balance - r == amount && r >= 0.0
    ensures balance >= 0.0 ==> r >= 0.0
  {
    if WithdrawalAccepted(balance, amount) then balance - amount else balance
  }

  /** The answer an account gives matches what it did: a deposit or a
      withdrawal is answered "accepted" exactly when it changed the balance,
      and with the refusal message exactly when it left the balance alone. */
  lemma VerdictsReportChange(balance: real, amount: real)
    ensures DepositVerdict(amount) == Accepted <==> AfterDeposit(balance, amount) != balance
    ensures WithdrawalVerdict(balance, amount) == Accepted <==> AfterWithdrawal(balance, amount) != balance
  {
  }

  /** The effect of the clients' script on one withdrawable account. The
      withdrawal of 200 goes through exactly when the balance after the
      deposit of 500 reaches 200, that is when the balance started at -300
      or above; in particular every non-negative balance gains 300. */
  function Transact(balance: real): (r: real)
    ensures balance >= -300.0 ==> r == balance + 300.0
    ensures balance < -300.0 ==> r == balance + 500.0
  {
    AfterWithdrawal(AfterDeposit(balance, ScriptDeposit), ScriptWithdrawal)
  }

  /** One call a client makes on an account that has both operations. */
  datatype Op = Deposit(amount: real) | Withdraw(amount: real)

  function Step(balance: real, op: Op): (r: real) {
    match op
    case Deposit(a) => AfterDeposit(balance, a)
    case Withdraw(a) => AfterWithdrawal(balance, a)
  }

  /** The balance after the calls `ops`, made in order. */
  function Replay(balance: real, ops: seq<Op>): (r: real)
    decreases |ops|
  {
    if ops == [] then balance else Replay(Step(balance, ops[0]), ops[1..])
  }

  /** The guards of `deposit` and `withdraw` keep a non-negative balance
      non-negative across any sequence of calls. */
  lemma {:induction false} ReplayKeepsNonNegative(balance: real, ops: seq<Op>)
    requires balance >= 0.0
    ensures Replay(balance, ops) >= 0.0
    decreases |ops|
  {
    if ops != [] {
      ReplayKeepsNonNegative(Step(balance, ops[0]), ops[1..]);
    }
  }

  /** An account offering only `deposit` (FDAccount) can never lose money:
      any sequence of deposits ends at or above where it started. */
  lemma {:induction false} DepositsNeverDecrease(balance: real, ops: seq<Op>)
    requires forall i :: 0 <= i < |ops| ==> ops[i].Deposit?
    ensures Replay(balance, ops) >= balance
    decreases |ops|
  {
    if ops != [] {
      DepositsNeverDecrease(Step(balance, ops[0]), ops[1..]);
    }
  }

  /** The script of the clients is the call sequence deposit(500), withdraw(200). */
  lemma ScriptIsReplay(balance: real)
    ensures Transact(balance) == Replay(balance, [Deposit(ScriptDeposit), Withdraw(ScriptWithdrawal)])
  {
    var ops := [Deposit(ScriptDeposit), Withdraw(ScriptWithdrawal)];
    var deposited := Step(balance, ops[0]);
    assert ops[1..] == [Withdraw(ScriptWithdrawal)];
    assert ops[1..][1..] == [];
    assert Replay(deposited, ops[1..]) == Replay(Step(deposited, ops[1]), []);
  }
}
