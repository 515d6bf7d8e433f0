/** The account hierarchy that violates Liskov substitution: one `Account`
    interface with both `deposit` and `withdraw`, two account classes that
    keep a balance, and a fixed-deposit class that keeps none and whose
    `withdraw` always throws UnsupportedOperationException. The exception
    is the result value `Unsupported`.

    The interface is the datatype `Account`: a value is either one of the
    balance-keeping objects or a fixed-deposit object, so Java's
    `instanceof FixedDepositAccount` is `FixedDeposit?`. */
module LspViolated {
  import opened Balance

  /** SavingsAccount and CurrentAccount differ only in name. */
  datatype BalanceKind = Savings | Current

  /** SavingsAccount and CurrentAccount. */
  class BalanceAccount {
    const kind: BalanceKind
    var balance: real

    constructor (kind: BalanceKind, initialBalance: real)
      ensures this.kind == kind && balance == initialBalance
    {
      this.kind := kind;
      balance := initialBalance;
    }

    method Deposit(amount: real) returns (v: Verdict)
      modifies this
      ensures balance == AfterDeposit(old(balance), amount)
      ensures amount > 0.0 ==> balance == old(balance) + amount
      ensures amount <= 0.0 ==> balance == old(balance)
      ensures v == DepositVerdict(amount)
    {
      if amount > 0.0 {
        balance := balance + amount;
        v := Accepted;
      } else {
        v := Rejected;
      }
    }

    method Withdraw(amount: real) returns (v: Verdict)
      modifies this
      ensures balance == AfterWithdrawal(old(balance), amount)
      ensures 0.0 < amount <= old(balance) ==> balance == old(balance) - amount
      ensures !(0.0 < amount <= old(balance)) ==> balance == old(balance)
      ensures v == WithdrawalVerdict(old(balance), amount)
    {
      if amount > 0.0 && amount <= balance {
        balance := balance - amount;
        v := Accepted;
      } else {
        v := Rejected;
      }
    }
  }

  /** How a call of `withdraw` through the interface ends: normally, with
      the account's verdict, or with UnsupportedOperationException. */
  datatype Attempt = Completed(verdict: Verdict) | Unsupported

  /** FixedDepositAccount: it has no fields, so its constructor drops the
      amount it is given and neither method can change any state. */
  class FixedDepositAccount {
    constructor (amount: real)
    {
    }

    /** Answers a deposit as the other accounts do, but records nothing. */
    method Deposit(amount: real) returns (v: Verdict)
      ensures v == Accepted <==> amount > 0.0
    {
      if amount > 0.0 {
        v := Accepted;
      } else {
        v := Rejected;
      }
    }

    /** Fails for every amount. */
    method Withdraw(amount: real) returns (a: Attempt)
      ensures a == Unsupported
    {
      a := Unsupported;
    }
  }

  /** A reference of the interface type `Account`. */
  datatype Account = Holding(holder: BalanceAccount) | FixedDeposit(fixed: FixedDepositAccount) {

    /** The objects a call through this reference may change. */
    function Footprint(): (r: set<object>) {
      if Holding? then {holder} else {}
    }

    /** `account.deposit(amount)`, dispatched on the object's class. */
    method Deposit(amount: real) returns (v: Verdict)
      modifies Footprint()
      ensures Holding? ==> holder.balance == AfterDeposit(old(holder.balance), amount)
      ensures v == DepositVerdict(amount)
    {
      match this
      case Holding(h) =>
        v := h.Deposit(amount);
      case FixedDeposit(f) =>
        v := f.Deposit(amount);
    }

    /** `account.withdraw(amount)`, dispatched on the object's class: it
        throws exactly for a fixed-deposit account. */
    method Withdraw(amount: real) returns (a: Attempt)
      modifies Footprint()
      ensures Holding? ==> holder.balance == AfterWithdrawal(old(holder.balance), amount)
      ensures Holding? ==> a == Completed(WithdrawalVerdict(old(holder.balance), amount))
      ensures FixedDeposit? ==> a == Unsupported
    {
      match this
      case Holding(h) =>
        var v := h.Withdraw(amount);
        a := Completed(v);
      case FixedDeposit(f) =>
        a := f.Withdraw(amount);
    }
  }

  /** What a client reports for one account: the verdict on its deposit,
      and whether a withdrawal was skipped or attempted and how it ended
      (an `Unsupported` attempt is one whose exception was caught). */
  datatype WithdrawStep = Skipped | Attempted(attempt: Attempt)
  datatype Report = Report(deposit: Verdict, withdrawal: WithdrawStep)

  /** The two ways the clients of this interface deal with the fixed
      deposit's `withdraw`: call it anyway and catch the exception
      (`LSPViolated.main`, BankClient), or test the class first and skip the
      call (BanksClient). */
  datatype Handling = CatchUnsupported | SkipFixedDeposits

  /** The report for one account, given the balance it held when its turn
      came (ignored for a fixed deposit). The deposit of 500 is always
      accepted; the withdrawal is skipped, or throws, only for a fixed
      deposit, and which of the two depends on the handling. */
  function ReportOf(handling: Handling, account: Account, balance: real): (r: Report)
    ensures r.deposit == Accepted
    ensures r.withdrawal == Skipped <==> handling == SkipFixedDeposits && account.FixedDeposit?
    ensures r.withdrawal == Attempted(Unsupported) <==> handling == CatchUnsupported && account.FixedDeposit?
  {
    match account
    case FixedDeposit(_) =>
      Report(DepositVerdict(ScriptDeposit),
             if handling == SkipFixedDeposits then Skipped else Attempted(Unsupported))
    case Holding(_) =>
      Report(DepositVerdict(ScriptDeposit),
             Attempted(Completed(WithdrawalVerdict(AfterDeposit(balance, ScriptDeposit), ScriptWithdrawal))))
  }

  /** The balance-keeping objects that `accs` refers to. */
  ghost function Holders(accs: seq<Account>): (r: set<BalanceAccount>) {
    set i | 0 <= i < |accs| && accs[i].Holding? :: accs[i].holder
  }

  ghost function Balances(accs: seq<Account>): (r: map<BalanceAccount, real>)
    reads Holders(accs)
  {
    map h | h in Holders(accs) :: h.balance
  }

  ghost predicate Covers(accs: seq<Account>, m: map<BalanceAccount, real>) {
    forall i :: 0 <= i < |accs| && accs[i].Holding? ==> accs[i].holder in m
  }

  lemma BalancesCover(accs: seq<Account>, m: map<BalanceAccount, real>)
    requires m.Keys == Holders(accs)
    ensures Covers(accs, m)
  {
    forall i | 0 <= i < |accs| && accs[i].Holding?
      ensures accs[i].holder in m
    {
      assert accs[i].holder in Holders(accs);
    }
  }

  /** The balances after deposit(500), withdraw(200) on each account of
      `accs` in list order, starting from `m`. A fixed-deposit account has
      no balance, so its turn changes nothing, whether its withdrawal is
      skipped or throws. */
  ghost function Run(accs: seq<Account>, m: map<BalanceAccount, real>): (r: map<BalanceAccount, real>)
    requires Covers(accs, m)
    ensures r.Keys == m.Keys
    decreases |accs|
  {
    if accs == [] then m
    else
      var before := Run(accs[..|accs| - 1], m);
      match accs[|accs| - 1]
      case FixedDeposit(_) => before
      case Holding(h) => before[h := Transact(before[h])]
  }

  /** The balance the `k`-th account holds when its turn comes (0 for a
      fixed deposit, which holds none). */
  ghost function TurnBalance(accs: seq<Account>, m: map<BalanceAccount, real>, k: int): (r: real)
    requires Covers(accs, m) && 0 <= k < |accs|
  {
    match accs[k]
    case FixedDeposit(_) => 0.0
    case Holding(h) => Run(accs[..k], m)[h]
  }

  /** The reports of a loop over `accs` with the given handling, in list order. */
  ghost function Log(handling: Handling, accs: seq<Account>, m: map<BalanceAccount, real>): (r: seq<Report>)
    requires Covers(accs, m)
    ensures |r| == |accs|
    decreases |accs|
  {
    if accs == [] then []
    else Log(handling, accs[..|accs| - 1], m) + [ReportOf(handling, accs[|accs| - 1], TurnBalance(accs, m, |accs| - 1))]
  }

  /** The `k`-th report depends only on the `k`-th account and the balance
      it held when its turn came. */
  lemma {:induction false} LogAt(handling: Handling, accs: seq<Account>, m: map<BalanceAccount, real>, k: int)
    requires Covers(accs, m) && 0 <= k < |accs|
    ensures Log(handling, accs, m)[k] == ReportOf(handling, accs[k], TurnBalance(accs, m, k))
    decreases |accs|
  {
    var init := accs[..|accs| - 1];
    if k < |accs| - 1 {
      LogAt(handling, init, m, k);
      assert init[..k] == accs[..k];
    }
  }

  /** The try/catch loop attempts a withdrawal on every account, and the
      attempt fails with the unsupported-operation error exactly on the
      fixed-deposit accounts. The failure stops nothing: there is a report
      for every account, those after the fixed deposit included. */
  lemma {:induction false} CatchingLogFailsOnlyOnFixedDeposits(accs: seq<Account>, m: map<BalanceAccount, real>)
    requires Covers(accs, m)
    ensures |Log(CatchUnsupported, accs, m)| == |accs|
    ensures forall k :: 0 <= k < |accs| ==> Log(CatchUnsupported, accs, m)[k].withdrawal.Attempted?
    ensures forall k :: 0 <= k < |accs| ==>
      (Log(CatchUnsupported, accs, m)[k].withdrawal == Attempted(Unsupported) <==> accs[k].FixedDeposit?)
  {
    forall k | 0 <= k < |accs|
      ensures Log(CatchUnsupported, accs, m)[k] == ReportOf(CatchUnsupported, accs[k], TurnBalance(accs, m, k))
    {
      LogAt(CatchUnsupported, accs, m, k);
    }
  }

  /** The guarded loop never lets the unsupported-operation error happen:
      it skips the withdrawal exactly on the fixed-deposit accounts, and
      every withdrawal it does attempt completes. */
  lemma {:induction false} GuardedLogNeverFails(accs: seq<Account>, m: map<BalanceAccount, real>)
    requires Covers(accs, m)
    ensures forall k :: 0 <= k < |accs| ==>
      (Log(SkipFixedDeposits, accs, m)[k].withdrawal == Skipped <==> accs[k].FixedDeposit?)
    ensures forall k :: 0 <= k < |accs| ==>
      Log(SkipFixedDeposits, accs, m)[k].withdrawal != Attempted(Unsupported)
  {
    forall k | 0 <= k < |accs|
      ensures Log(SkipFixedDeposits, accs, m)[k] == ReportOf(SkipFixedDeposits, accs[k], TurnBalance(accs, m, k))
    {
      LogAt(SkipFixedDeposits, accs, m, k);
    }
  }

  /** The two handlings differ only on fixed-deposit accounts: every other
      account gets the same report from both loops. */
  lemma {:induction false} LogsAgreeOnHolders(accs: seq<Account>, m: map<BalanceAccount, real>)
    requires Covers(accs, m)
    ensures forall k :: 0 <= k < |accs| && accs[k].Holding? ==>
      Log(SkipFixedDeposits, accs, m)[k] == Log(CatchUnsupported, accs, m)[k]
  {
    forall k | 0 <= k < |accs| && accs[k].Holding?
      ensures Log(SkipFixedDeposits, accs, m)[k] == Log(CatchUnsupported, accs, m)[k]
    {
      LogAt(SkipFixedDeposits, accs, m, k);
      LogAt(CatchUnsupported, accs, m, k);
    }
  }

  /** One more turn of a run: a fixed deposit changes nothing, a
      balance-keeping account moves from its turn balance by the script. */
  lemma RunStep(accs: seq<Account>, m: map<BalanceAccount, real>, i: int)
    requires Covers(accs, m) && 0 <= i < |accs|
    ensures Covers(accs[..i], m) && Covers(accs[..i + 1], m)
    ensures accs[i].FixedDeposit? ==> Run(accs[..i + 1], m) == Run(accs[..i], m)
    ensures accs[i].Holding? ==> TurnBalance(accs, m, i) == Run(accs[..i], m)[accs[i].holder]
    ensures accs[i].Holding? ==>
      Run(accs[..i + 1], m) == Run(accs[..i], m)[accs[i].holder := Transact(TurnBalance(accs, m, i))]
  {
    assert accs[..i + 1][..i] == accs[..i];
  }

  /** Each balance-keeping object appears at most once in `accs`. */
  ghost predicate DistinctHolders(accs: seq<Account>) {
    forall j, k :: 0 <= j < k < |accs| && accs[j].Holding? && accs[k].Holding? ==> accs[j].holder != accs[k].holder
  }

  /** A run touches only the objects on the list. */
  lemma {:induction false} RunElsewhere(accs: seq<Account>, m: map<BalanceAccount, real>, h: BalanceAccount)
    requires Covers(accs, m) && h in m
    requires forall i :: 0 <= i < |accs| && accs[i].Holding? ==> accs[i].holder != h
    ensures Run(accs, m)[h] == m[h]
    decreases |accs|
  {
    if accs != [] {
      RunElsewhere(accs[..|accs| - 1], m, h);
    }
  }

  /** With distinct objects, each balance-keeping account takes its turn
      from its own starting balance and ends at the script's effect on it. */
  lemma {:induction false} RunDistinct(accs: seq<Account>, m: map<BalanceAccount, real>, i: int)
    requires Covers(accs, m) && DistinctHolders(accs)
    requires 0 <= i < |accs| && accs[i].Holding?
    ensures TurnBalance(accs, m, i) == m[accs[i].holder]
    ensures Run(accs, m)[accs[i].holder] == Transact(m[accs[i].holder])
    decreases |accs|
  {
    RunElsewhere(accs[..i], m, accs[i].holder);
    var init := accs[..|accs| - 1];
    if i < |accs| - 1 {
      RunDistinct(init, m, i);
      assert accs[|accs| - 1].Holding? ==> accs[|accs| - 1].holder != accs[i].holder;
    } else {
      assert init == accs[..i];
    }
  }

  /** An account that keeps a balance, starts at or above zero and is
      listed once ends 300 up: its withdrawal of 200 always goes through
      after the deposit of 500. */
  lemma HolderGainsThreeHundred(accs: seq<Account>, m: map<BalanceAccount, real>, i: int)
    requires Covers(accs, m) && DistinctHolders(accs)
    requires 0 <= i < |accs| && accs[i].Holding? && m[accs[i].holder] >= 0.0
    ensures Run(accs, m)[accs[i].holder] == m[accs[i].holder] + 300.0
  {
    RunDistinct(accs, m, i);
  }

  /** One turn of the loop of `main`: deposit 500, then withdraw 200 inside
      the try block; a fixed deposit's failure is caught and recorded. */
  method CatchingTurn(account: Account) returns (report: Report)
    modifies account.Footprint()
    ensures account.Holding? ==> account.holder.balance == Transact(old(account.holder.balance))
    ensures account.Holding? ==> report == ReportOf(CatchUnsupported, account, old(account.holder.balance))
    ensures account.FixedDeposit? ==> report == ReportOf(CatchUnsupported, account, 0.0)
  {
    var d := account.Deposit(ScriptDeposit);
    var attempt := account.Withdraw(ScriptWithdrawal);
    report := Report(d, Attempted(attempt));
  }

  /** The loop of `LSPViolated.main` (and of `BankClient.performTransactions`):
      on every account, in list order, deposit 500, then withdraw 200 inside
      a try that catches the unsupported-operation failure and goes on with
      the next account. */
  method UseAccounts(accounts: seq<Account>) returns (reports: seq<Report>)
    modifies Holders(accounts)
    ensures forall h :: h in Holders(accounts) ==> h.balance == Run(accounts, old(Balances(accounts)))[h]
    ensures reports == Log(CatchUnsupported, accounts, old(Balances(accounts)))
  {
    ghost var m0 := Balances(accounts);
    BalancesCover(accounts, m0);
    reports := [];
    var i := 0;
    while i < |accounts|
      invariant 0 <= i <= |accounts|
      invariant forall h :: h in Holders(accounts) ==> h.balance == Run(accounts[..i], m0)[h]
      invariant |reports| == i
      invariant reports == Log(CatchUnsupported, accounts[..i], m0)
    {
      var account := accounts[i];
      RunStep(accounts, m0, i);
      ghost var turn := TurnBalance(accounts, m0, i);
      assert account.Holding? ==> account.holder in m0 && account.holder.balance == turn;
      var report := CatchingTurn(account);
      assert report == ReportOf(CatchUnsupported, account, turn);
      assert accounts[..i + 1][..i] == accounts[..i] && accounts[..i + 1][i] == account;
      assert TurnBalance(accounts[..i + 1], m0, i) == turn;
      reports := reports + [report];
      i := i + 1;
    }
    assert accounts[..i] == accounts;
  }

  /** The driver of LSPViolated.java: SavingsAccount(1000),
      CurrentAccount(2000) and FixedDepositAccount(5000). The fixed deposit's
      withdrawal throws, the exception is caught, and the other two end at
      1300 and 2300. */
  method ViolatedScenario() returns (savings: real, current: real, reports: seq<Report>)
    ensures savings == 1300.0 && current == 2300.0
    ensures |reports| == 3 && reports[2] == Report(Accepted, Attempted(Unsupported))
  {
    var s := new BalanceAccount(Savings, 1000.0);
    var c := new BalanceAccount(Current, 2000.0);
    var f := new FixedDepositAccount(5000.0);
    var accounts := [Holding(s), Holding(c), FixedDeposit(f)];
    ghost var m0 := Balances(accounts);
    reports := UseAccounts(accounts);
    RunDistinct(accounts, m0, 0);
    RunDistinct(accounts, m0, 1);
    savings, current := s.balance, c.balance;
  }
}
