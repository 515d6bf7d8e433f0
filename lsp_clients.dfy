/** The two clients of the broad `Account` interface. BanksClient (the
    class in LSPWronglyHandled.java and the record of the same name in
    BanksClient.java, whose loops are identical) tests the class of each
    account before withdrawing; BankClient withdraws from every account
    and catches the unsupported-operation failure. */
module LspClients {
  import opened Balance
  import opened LspViolated

  /** One turn of BanksClient's loop: a FixedDepositAccount gets only the
      deposit of 500; any other account gets the deposit and a withdrawal
      of 200. */
  method GuardedTurn(account: Account) returns (report: Report)
    modifies account.Footprint()
    ensures account.Holding? ==> account.holder.balance == Transact(old(account.holder.balance))
    ensures account.Holding? ==> report == ReportOf(SkipFixedDeposits, account, old(account.holder.balance))
    ensures account.FixedDeposit? ==> report == ReportOf(SkipFixedDeposits, account, 0.0)
  {
    if account.FixedDeposit? {
      var d := account.Deposit(ScriptDeposit);
      report := Report(d, Skipped);
    } else {
      var d := account.Deposit(ScriptDeposit);
      var attempt := account.Withdraw(ScriptWithdrawal);
      report := Report(d, Attempted(attempt));
    }
  }

  class BanksClient {
    const accounts: seq<Account>

    constructor (accounts: seq<Account>)
      ensures this.accounts == accounts
    {
      this.accounts := accounts;
    }

    /** `performTransactions`: on every account, in list order, deposit
        500; then, unless the account is a FixedDepositAccount, withdraw
        200. Since `withdraw` is never called on a fixed deposit, no
        unsupported-operation failure can occur (see GuardedLogNeverFails). */
    method PerformTransactions() returns (reports: seq<Report>)
      modifies Holders(accounts)
      ensures forall h :: h in Holders(accounts) ==> h.balance == Run(accounts, old(Balances(accounts)))[h]
      ensures reports == Log(SkipFixedDeposits, accounts, old(Balances(accounts)))
    {
      ghost var m0 := Balances(accounts);
      BalancesCover(accounts, m0);
      reports := [];
      var i := 0;
      while i < |accounts|
        invariant 0 <= i <= |accounts|
        invariant forall h :: h in Holders(accounts) ==> h.balance == Run(accounts[..i], m0)[h]
        invariant reports == Log(SkipFixedDeposits, accounts[..i], m0)
      {
        var account := accounts[i];
        RunStep(accounts, m0, i);
        ghost var turn := TurnBalance(accounts, m0, i);
        assert account.Holding? ==> account.holder in m0 && account.holder.balance == turn;
        var report := GuardedTurn(account);
        assert report == ReportOf(SkipFixedDeposits, account, turn);
        assert accounts[..i + 1][..i] == accounts[..i] && accounts[..i + 1][i] == account;
        assert TurnBalance(accounts[..i + 1], m0, i) == turn;
        reports := reports + [report];
        i := i + 1;
      }
      assert accounts[..i] == accounts;
    }
  }

  class BankClient {
    const accounts: seq<Account>

    constructor (accounts: seq<Account>)
      ensures this.accounts == accounts
    {
      this.accounts := accounts;
    }

    /** `performTransactions`: the loop of `LSPViolated.main` over this
        client's list. Every account gets its deposit and a withdrawal
        attempt; a fixed deposit's failure is caught and the loop goes on
        (see CatchingLogFailsOnlyOnFixedDeposits). The balances end exactly
        as under BanksClient. */
    method PerformTransactions() returns (reports: seq<Report>)
      modifies Holders(accounts)
      ensures forall h :: h in Holders(accounts) ==> h.balance == Run(accounts, old(Balances(accounts)))[h]
      ensures reports == Log(CatchUnsupported, accounts, old(Balances(accounts)))
    {
      reports := UseAccounts(accounts);
    }
  }

  /** The driver of LSPWronglyHandled.java: SavingsAccount(1000),
      CurrentAccount(2000) and FixedDepositAccount(3000) through the
      guarded client. The fixed deposit's withdrawal is skipped and the
      other two end at 1300 and 2300. */
  method WronglyHandledScenario() returns (savings: real, current: real, reports: seq<Report>)
    ensures savings == 1300.0 && current == 2300.0
    ensures |reports| == 3 && reports[2] == Report(Accepted, Skipped)
    ensures forall k :: 0 <= k < 3 ==> reports[k].withdrawal != Attempted(Unsupported)
  {
    var s := new BalanceAccount(Savings, 1000.0);
    var c := new BalanceAccount(Current, 2000.0);
    var f := new FixedDepositAccount(3000.0);
    var accounts := [Holding(s), Holding(c), FixedDeposit(f)];
    var client := new BanksClient(accounts);
    ghost var m0 := Balances(accounts);
    BalancesCover(accounts, m0);
    reports := client.PerformTransactions();
    GuardedLogNeverFails(accounts, m0);
    HolderGainsThreeHundred(accounts, m0, 0);
    HolderGainsThreeHundred(accounts, m0, 1);
    savings, current := s.balance, c.balance;
  }
}
