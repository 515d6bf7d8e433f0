/** The account hierarchy that follows Liskov substitution: a deposit-only
    capability, a withdrawable capability that extends it, three account
    classes and the client that drives them through two separate lists.

    The two Java interfaces cannot be written as Dafny types here, so the
    account class carries its kind. What the Java compiler enforces (only a
    WithDrawableAccount has `withdraw`, and only such accounts go into the
    withdrawable list) is a precondition of `Withdraw` and part of the
    client's `Valid` predicate: a call on a fixed-deposit account does not
    verify, just as it does not compile. */
module LspFollowed {
  import opened Balance

  /** SavingAccount and SalaryAccount implement WithDrawableAccount;
      FDAccount implements only DepositOnlyAccount. */
  datatype Kind = Saving | Salary | FD {
    predicate Withdrawable() {
      this != FD
    }
  }

  /** One account object: its class, and the private `balance` its methods update. */
  class Account {
    const kind: Kind
    var balance: real

    constructor (kind: Kind, initialBalance: real)
      ensures this.kind == kind && balance == initialBalance
    {
      this.kind := kind;
      balance := initialBalance;
    }

    /** `deposit`: identical in all three classes. */
    method Deposit(amount: real) returns (v: Verdict)
      modifies this
      ensures balance == AfterDeposit(old(balance), amount)
      ensures amount > 0.0 ==> balance == old(balance) + amount
      ensures amount <= 0.0 ==> balance == old(balance)
      ensures v == DepositVerdict(amount)
    {
      if amount > 0.0 {
        balance := balance + amount;
        v := Accepted;
      } else {
        v := Rejected;
      }
    }

    /** `withdraw`: declared only by WithDrawableAccount, so an FDAccount
        has none. */
    method Withdraw(amount: real) returns (v: Verdict)
      requires kind.Withdrawable()
      modifies this
      ensures balance == AfterWithdrawal(old(balance), amount)
      ensures 0.0 < amount <= old(balance) ==> balance == old(balance) - amount
      ensures !(0.0 < amount <= old(balance)) ==> balance == old(balance)
      ensures v == WithdrawalVerdict(old(balance), amount)
    {
      if amount > 0.0 && amount <= balance {
        balance := balance - amount;
        v := Accepted;
      } else {
        v := Rejected;
      }
    }

    /** One turn of `performDrawableTransactions`: `deposit(500)`, then
        `withdraw(200)`, and the receipt the two calls print. */
    method TakeTurn() returns (r: Receipt)
      requires kind.Withdrawable()
      modifies this
      ensures balance == Transact(old(balance))
      ensures r == ExpectedReceipt(old(balance))
    {
      var d := Deposit(ScriptDeposit);
      var w := Withdraw(ScriptWithdrawal);
      r := Receipt(d, w);
    }
  }

  /** What a client does to each account of one of its lists. */
  datatype Script = DepositOnly | DepositThenWithdraw

  /** The balance of one account after its turn, starting from `balance`. */
  function Effect(s: Script, balance: real): (r: real) {
    match s
    case DepositOnly => AfterDeposit(balance, ScriptDeposit)
    case DepositThenWithdraw => Transact(balance)
  }

  /** The lines printed for one withdrawable account: how its deposit and
      its withdrawal were answered. */
  datatype Receipt = Receipt(deposit: Verdict, withdrawal: Verdict)

  function ExpectedReceipt(balance: real): (r: Receipt) {
    Receipt(DepositVerdict(ScriptDeposit),
            WithdrawalVerdict(AfterDeposit(balance, ScriptDeposit), ScriptWithdrawal))
  }

  /** The balances of the accounts in `accs`, keyed by object. */
  ghost function Balances(accs: seq<Account>): (r: map<Account, real>)
    reads set a | a in accs
  {
    map a | a in accs :: a.balance
  }

  ghost predicate Covers(accs: seq<Account>, m: map<Account, real>) {
    forall a :: a in accs ==> a in m
  }

  /** The balances after a client has run script `s` over `accs` in list
      order, starting from balances `m`. An object listed twice takes its
      turn twice. */
  ghost function Run(accs: seq<Account>, m: map<Account, real>, s: Script): (r: map<Account, real>)
    requires Covers(accs, m)
    ensures r.Keys == m.Keys
    decreases |accs|
  {
    if accs == [] then m
    else
      var last := accs[|accs| - 1];
      var before := Run(accs[..|accs| - 1], m, s);
      before[last := Effect(s, before[last])]
  }

  /** The balance the `k`-th account on the list holds when its turn comes. */
  ghost function TurnBalance(accs: seq<Account>, m: map<Account, real>, s: Script, k: int): (r: real)
    requires Covers(accs, m) && 0 <= k < |accs|
  {
    assert forall b :: b in accs[..k] ==> b in accs;
    Run(accs[..k], m, s)[accs[k]]
  }

  /** The receipts of `performDrawableTransactions` over `accs`, in list order. */
  ghost function Receipts(accs: seq<Account>, m: map<Account, real>): (r: seq<Receipt>)
    requires Covers(accs, m)
    ensures |r| == |accs|
    decreases |accs|
  {
    if accs == [] then []
    else
      assert forall b :: b in accs[..|accs| - 1] ==> b in accs;
      Receipts(accs[..|accs| - 1], m) + [ExpectedReceipt(TurnBalance(accs, m, DepositThenWithdraw, |accs| - 1))]
  }

  /** The `k`-th receipt is decided by the balance the `k`-th account held
      when its turn came. */
  lemma {:induction false} ReceiptsAt(accs: seq<Account>, m: map<Account, real>, k: int)
    requires Covers(accs, m) && 0 <= k < |accs|
    ensures Receipts(accs, m)[k] == ExpectedReceipt(TurnBalance(accs, m, DepositThenWithdraw, k))
    decreases |accs|
  {
    var init := accs[..|accs| - 1];
    assert forall b :: b in init ==> b in accs;
    if k < |accs| - 1 {
      ReceiptsAt(init, m, k);
      assert init[..k] == accs[..k];
    }
  }

  /** Extending the processed prefix by the `i`-th account: its turn
      starts from the balance it holds after the prefix, and adds one
      receipt. */
  lemma RunStep(accs: seq<Account>, m: map<Account, real>, i: int)
    requires Covers(accs, m) && 0 <= i < |accs|
    ensures Covers(accs[..i], m) && Covers(accs[..i + 1], m)
    ensures TurnBalance(accs, m, DepositThenWithdraw, i) == Run(accs[..i], m, DepositThenWithdraw)[accs[i]]
    ensures Run(accs[..i + 1], m, DepositThenWithdraw)
      == Run(accs[..i], m, DepositThenWithdraw)[accs[i] := Transact(TurnBalance(accs, m, DepositThenWithdraw, i))]
    ensures Receipts(accs[..i + 1], m)
      == Receipts(accs[..i], m) + [ExpectedReceipt(TurnBalance(accs, m, DepositThenWithdraw, i))]
  {
    assert forall b :: b in accs[..i + 1] ==> b in accs;
    assert accs[..i + 1][..i] == accs[..i];
  }

  /** A run touches only the accounts on the list. */
  lemma {:induction false} RunElsewhere(accs: seq<Account>, m: map<Account, real>, s: Script, a: Account)
    requires Covers(accs, m) && a in m && a !in accs
    ensures Run(accs, m, s)[a] == m[a]
    decreases |accs|
  {
    if accs != [] {
      var init := accs[..|accs| - 1];
      assert forall b :: b in init ==> b in accs;
      RunElsewhere(init, m, s, a);
    }
  }

  /** When the list holds each object once, every account on it ends at
      the script's effect on its own starting balance, whatever the others do. */
  lemma {:induction false} RunDistinct(accs: seq<Account>, m: map<Account, real>, s: Script, i: int)
    requires Covers(accs, m)
    requires forall j, k :: 0 <= j < k < |accs| ==> accs[j] != accs[k]
    requires 0 <= i < |accs|
    ensures Run(accs, m, s)[accs[i]] == Effect(s, m[accs[i]])
    decreases |accs|
  {
    var init := accs[..|accs| - 1];
    assert forall b :: b in init ==> b in accs;
    if i < |accs| - 1 {
      RunDistinct(init, m, s, i);
    } else {
      assert accs[i] !in init;
      RunElsewhere(init, m, s, accs[i]);
    }
  }

  /** A withdrawable account listed once that starts at or above zero
      ends 300 up after `performDrawableTransactions`. */
  lemma WithdrawableGainsThreeHundred(accs: seq<Account>, m: map<Account, real>, i: int)
    requires Covers(accs, m)
    requires forall j, k :: 0 <= j < k < |accs| ==> accs[j] != accs[k]
    requires 0 <= i < |accs| && m[accs[i]] >= 0.0
    ensures Run(accs, m, DepositThenWithdraw)[accs[i]] == m[accs[i]] + 300.0
  {
    RunDistinct(accs, m, DepositThenWithdraw, i);
  }

  /** `performFDTransactions` never lowers any balance, whatever the list
      holds and however often an account is listed: the deposit-only list
      offers nothing but `deposit`. */
  lemma {:induction false} DepositOnlyNeverLowers(accs: seq<Account>, m: map<Account, real>, a: Account)
    requires Covers(accs, m) && a in m
    ensures Run(accs, m, DepositOnly)[a] >= m[a]
    decreases |accs|
  {
    if accs != [] {
      var init := accs[..|accs| - 1];
      assert forall b :: b in init ==> b in accs;
      DepositOnlyNeverLowers(init, m, a);
    }
  }

  /** With distinct accounts, the receipt of the `k`-th account depends
      only on its own starting balance: a rejected withdrawal on one
      account does not change what happens to another. */
  lemma TurnBalanceDistinct(accs: seq<Account>, m: map<Account, real>, s: Script, k: int)
    requires Covers(accs, m)
    requires forall j, l :: 0 <= j < l < |accs| ==> accs[j] != accs[l]
    requires 0 <= k < |accs|
    ensures TurnBalance(accs, m, s, k) == m[accs[k]]
  {
    assert forall b :: b in accs[..k] ==> b in accs;
    RunElsewhere(accs[..k], m, s, accs[k]);
  }

  /** The `Client` of LSPFollowed.java (and the record `Client` of
      Client.java, whose two methods are the same loops under other names). */
  class Client {
    const fdAccounts: seq<Account>
    const drawableAccounts: seq<Account>

    /** The element type of the second list, List<WithDrawableAccount>. */
    predicate Valid() {
      forall i :: 0 <= i < |drawableAccounts| ==> drawableAccounts[i].kind.Withdrawable()
    }

    constructor (fdAccounts: seq<Account>, drawableAccounts: seq<Account>)
      requires forall i :: 0 <= i < |drawableAccounts| ==> drawableAccounts[i].kind.Withdrawable()
      ensures this.fdAccounts == fdAccounts && this.drawableAccounts == drawableAccounts
      ensures Valid()
    {
      this.fdAccounts := fdAccounts;
      this.drawableAccounts := drawableAccounts;
    }

    /** `performFDTransactions`: deposit 500 into each deposit-only
        account, in list order. It has no withdrawal to call. */
    method PerformFDTransactions() returns (verdicts: seq<Verdict>)
      modifies set a | a in fdAccounts
      ensures forall a :: a in fdAccounts ==>
        a.balance == Run(fdAccounts, old(Balances(fdAccounts)), DepositOnly)[a]
      ensures |verdicts| == |fdAccounts|
      ensures forall k :: 0 <= k < |verdicts| ==> verdicts[k] == Accepted
    {
      ghost var m0 := Balances(fdAccounts);
      verdicts := [];
      var i := 0;
      while i < |fdAccounts|
        invariant 0 <= i <= |fdAccounts|
        invariant Covers(fdAccounts[..i], m0)
        invariant forall a :: a in fdAccounts ==> a.balance == Run(fdAccounts[..i], m0, DepositOnly)[a]
        invariant |verdicts| == i
        invariant forall k :: 0 <= k < i ==> verdicts[k] == Accepted
      {
        var account := fdAccounts[i];
        var v := account.Deposit(ScriptDeposit);
        verdicts := verdicts + [v];
        assert fdAccounts[..i + 1][..i] == fdAccounts[..i];
        i := i + 1;
      }
      assert fdAccounts[..i] == fdAccounts;
    }

    /** `performDrawableTransactions`: deposit 500 then withdraw 200 on each
        withdrawable account, in list order. */
    method PerformDrawableTransactions() returns (receipts: seq<Receipt>)
      requires Valid()
      modifies set a | a in drawableAccounts
      ensures forall a :: a in drawableAccounts ==>
        a.balance == Run(drawableAccounts, old(Balances(drawableAccounts)), DepositThenWithdraw)[a]
      ensures receipts == Receipts(drawableAccounts, old(Balances(drawableAccounts)))
      ensures forall k :: 0 <= k < |receipts| ==>
        receipts[k] == ExpectedReceipt(TurnBalance(drawableAccounts, old(Balances(drawableAccounts)), DepositThenWithdraw, k))
    {
      ghost var m0 := Balances(drawableAccounts);
      receipts := [];
      var i := 0;
      while i < |drawableAccounts|
        invariant 0 <= i <= |drawableAccounts|
        invariant Covers(drawableAccounts[..i], m0)
        invariant forall a :: a in drawableAccounts ==>
          a.balance == Run(drawableAccounts[..i], m0, DepositThenWithdraw)[a]
        invariant receipts == Receipts(drawableAccounts[..i], m0)
      {
        var account := drawableAccounts[i];
        RunStep(drawableAccounts, m0, i);
        ghost var turn := TurnBalance(drawableAccounts, m0, DepositThenWithdraw, i);
        assert account.balance == turn;
        var receipt := account.TakeTurn();
        receipts := receipts + [receipt];
        i := i + 1;
      }
      assert drawableAccounts[..i] == drawableAccounts;
      forall k | 0 <= k < |receipts|
        ensures receipts[k] == ExpectedReceipt(TurnBalance(drawableAccounts, m0, DepositThenWithdraw, k))
      {
        ReceiptsAt(drawableAccounts, m0, k);
      }
    }
  }

  /** The driver of LSPFollowed.java: FDAccount(1000) in the deposit-only
      list, SavingAccount(1000) and SalaryAccount(2000) in the withdrawable
      one; the withdrawable list first, then the deposit-only list. */
  method FollowedScenario() returns (fd: real, saving: real, salary: real)
    ensures saving == 1300.0 && salary == 2300.0 && fd == 1500.0
  {
    var fdAccount := new Account(FD, 1000.0);
    var savingAccount := new Account(Saving, 1000.0);
    var salaryAccount := new Account(Salary, 2000.0);
    var drawable := [savingAccount, salaryAccount];
    var client := new Client([fdAccount], drawable);
    ghost var m0 := Balances(drawable);
    assert m0[savingAccount] == 1000.0 && m0[salaryAccount] == 2000.0;
    var receipts := client.PerformDrawableTransactions();
    RunDistinct(drawable, m0, DepositThenWithdraw, 0);
    RunDistinct(drawable, m0, DepositThenWithdraw, 1);
    saving, salary := savingAccount.balance, salaryAccount.balance;
    assert saving == 1300.0 && salary == 2300.0;
    ghost var m1 := Balances([fdAccount]);
    assert m1[fdAccount] == 1000.0;
    var verdicts := client.PerformFDTransactions();
    RunDistinct([fdAccount], m1, DepositOnly, 0);
    fd := fdAccount.balance;
  }
}
