/**
 * A bank account whose balance and transaction log change in place, and the
 * counter that hands out account numbers.
 */
module Bank {
  import opened Wrappers
  import opened Ledger

  /** The first account number the counter hands out. */
  const FirstAccountNumber: int := 328710100001

  /** The opening balance when none is given: Rs. 500.00. */
  const DefaultOpeningBalance: Money := 50000

  /**
   * The process-wide account-number counter, as an explicit object.
   * `issued` records, for the proof only, every number handed out so far.
   */
  class Counter {
    var next: int
    ghost var issued: set<int>

    /** Every number handed out lies below the next one. */
    ghost predicate Valid()
      reads this
    {
      forall n :: n in issued ==> n < next
    }

    constructor ()
      ensures Valid() && next == FirstAccountNumber && issued == {}
    {
      next := FirstAccountNumber;
      issued := {};
    }

    /** The number the source reports as the next account number: one past the counter. */
    function NextAccountNumber(): (r: int)
      reads this
      ensures r == Upcoming() + 1
    {
      next + 1
    }

    /** The number the next constructed account will receive. */
    function Upcoming(): (r: int)
      reads this
      ensures Valid() ==> forall n :: n in issued ==> n < r
    {
      next
    }
  }

  /** What `NextAccountNumber` reports is never the number the next account receives. */
  lemma NextAccountNumberSkipsOne(c: Counter)
    ensures c.NextAccountNumber() != c.Upcoming()
  {
  }

  class Account {
    const number: int
    const name: string
    var balance: Money
    var log: seq<Transaction>
    /** The iteration cursor: the next index to yield, and the snapshot length. */
    var pos: nat
    var max: nat
    /** The balance the account was opened with. */
    ghost const initial: Money

    /**
     * The account invariant: the log is a chain of legal records from the
     * opening balance to the current balance, and the cursor stays inside it.
     */
    ghost predicate Valid()
      reads this
    {
      && pos <= max <= |log|
      && Chains(initial, log)
      && AllLegal(log)
      && balance == Closing(initial, log)
    }

    /**
     * Opens an account: takes the counter's current value as its number and
     * advances the counter by one. The opening balance is not checked.
     */
    constructor (counter: Counter, name: string, balance: Money := DefaultOpeningBalance)
      requires counter.Valid()
      modifies counter
      ensures Valid()
      ensures number == old(counter.Upcoming()) && counter.next == old(counter.next) + 1
      ensures forall n :: n in old(counter.issued) ==> n < number
      ensures counter.issued == old(counter.issued) + {number} && counter.Valid()
      ensures this.name == name && this.balance == balance && initial == balance
      ensures log == [] && pos == 0 && max == 0
    {
      this.name := name;
      this.balance := balance;
      log := [];
      number := counter.next;
      initial := balance;
      pos := 0;
      max := 0;
      new;
      counter.next := counter.next + 1;
      counter.issued := counter.issued + {number};
    }

    /**
     * Adds a positive amount and appends one credit record; a non-positive
     * amount is refused and nothing changes.
     */
    method Deposit(amount: Money, at: Timestamp) returns (ok: bool)
      requires Valid()
      modifies this`balance, this`log
      ensures Valid()
      ensures ok <==> amount > 0
      ensures ok ==> balance == old(balance) + amount
      ensures ok ==> log == old(log) + [Transaction(Credit, at, old(balance), amount, balance)]
      ensures !ok ==> balance == old(balance) && log == old(log)
    {
      if amount <= 0 {
        return false;
      }
      var t := Transaction(Credit, at, balance, amount, balance + amount);
      ChainsAppend(initial, log, t);
      balance := balance + amount;
      log := log + [t];
      ok := true;
    }

    /**
     * Subtracts the amount and appends one debit record when the balance
     * stays non-negative; otherwise nothing changes. The amount itself is not
     * checked, so a negative withdrawal raises the balance.
     */
    method Withdraw(amount: Money, at: Timestamp) returns (ok: bool)
      requires Valid()
      modifies this`balance, this`log
      ensures Valid()
      ensures ok <==> old(balance) - amount >= 0
      ensures ok ==> balance == old(balance) - amount && balance >= 0
      ensures ok ==> log == old(log) + [Transaction(Debit, at, old(balance), -amount, balance)]
      ensures !ok ==> balance == old(balance) && log == old(log)
    {
      if balance - amount >= 0 {
        var t := Transaction(Debit, at, balance, -amount, balance - amount);
        ChainsAppend(initial, log, t);
        balance := balance - amount;
        log := log + [t];
        return true;
      }
      return false;
    }

    /** `account += amount`: a deposit whose outcome is dropped; the account itself is the result. */
    method AddAssign(amount: Money, at: Timestamp) returns (self: Account)
      requires Valid()
      modifies this`balance, this`log
      ensures self == this && Valid()
      ensures amount > 0 ==> balance == old(balance) + amount
      ensures amount > 0 ==> log == old(log) + [Transaction(Credit, at, old(balance), amount, balance)]
      ensures amount <= 0 ==> balance == old(balance) && log == old(log)
    {
      var _ := Deposit(amount, at);
      self := this;
    }

    /** `account -= amount`: a withdrawal whose outcome is dropped; the account itself is the result. */
    method SubAssign(amount: Money, at: Timestamp) returns (self: Account)
      requires Valid()
      modifies this`balance, this`log
      ensures self == this && Valid()
      ensures old(balance) - amount >= 0 ==> balance == old(balance) - amount
      ensures old(balance) - amount >= 0 ==> log == old(log) + [Transaction(Debit, at, old(balance), -amount, balance)]
      ensures old(balance) - amount < 0 ==> balance == old(balance) && log == old(log)
    {
      var _ := Withdraw(amount, at);
      self := this;
    }

    /** `<=`: compares balances only. */
    function LessOrEqual(other: Account): (r: bool)
      reads this, other
      ensures r == other.GreaterOrEqual(this)
      ensures r || GreaterOrEqual(other)
    {
      balance <= other.balance
    }

    /** `>=`: compares balances only. */
    function GreaterOrEqual(other: Account): (r: bool)
      reads this, other
      ensures r <==> other.balance <= balance
    {
      balance >= other.balance
    }

    /** `==`: accounts are the same exactly when their numbers are, whatever their balances. */
    function Equal(other: Account): (r: bool)
      ensures r <==> number == other.number
      ensures other == this ==> r
    {
      number == other.number
    }

    /** `!=`: always the negation of `Equal`. */
    function NotEqual(other: Account): (r: bool)
      ensures r == !Equal(other)
    {
      number != other.number
    }

    /** `len(account)`: the number of transactions logged. */
    function Length(): (n: nat)
      reads this
      ensures n == |log| == |ReversedLog()|
    {
      |log|
    }

    /**
     * `account[i]`: the i-th log record, counting from the end for a negative
     * index as Python does; None where the source raises IndexError.
     */
    function At(i: int): (r: Option<Transaction>)
      reads this
      ensures r.Some? <==> -|log| <= i < |log|
      ensures 0 <= i < |log| ==> r == Some(log[i])
      ensures -|log| <= i < 0 ==> r == Some(log[|log| + i])
    {
      if 0 <= i < |log| then Some(log[i])
      else if -|log| <= i < 0 then Some(log[|log| + i])
      else None
    }

    /** `reversed(account)`: a new list holding the log from the newest record to the oldest. */
    function ReversedLog(): (r: seq<Transaction>)
      reads this
      ensures |r| == |log|
      ensures forall k :: 0 <= k < |log| ==> r[k] == log[|log| - 1 - k]
    {
      Reverse(log)
    }

    /** `iter(account)`: restarts the cursor and snapshots the log's length; the account is its own iterator. */
    method Iterate() returns (self: Account)
      requires Valid()
      modifies this`pos, this`max
      ensures self == this && Valid()
      ensures pos == 0 && max == |log|
    {
      pos := 0;
      max := |log|;
      self := this;
    }

    /** `next(account)`: the record under the cursor, or None (StopIteration) once the snapshot is used up. */
    method Next() returns (r: Option<Transaction>)
      requires Valid()
      modifies this`pos
      ensures Valid()
      ensures old(pos) < max ==> r == Some(log[old(pos)]) && pos == old(pos) + 1
      ensures old(pos) >= max ==> r == None && pos == old(pos)
    {
      if pos >= max {
        return None;
      }
      r := Some(log[pos]);
      pos := pos + 1;
    }

    /** A `for` loop over the account: restarts iteration and collects records until StopIteration. */
    method Collect() returns (items: seq<Transaction>)
      requires Valid()
      modifies this`pos, this`max
      ensures Valid()
      ensures items == log && pos == max == |log|
    {
      var _ := Iterate();
      items := [];
      var r := Next();
      while r.Some?
        invariant Valid() && max == |log|
        invariant r.Some? ==> 0 < pos && items + [r.value] == log[..pos]
        invariant r.None? ==> pos == max && items == log[..pos]
        decreases max - pos, r.Some?
      {
        items := items + [r.value];
        r := Next();
      }
    }
  }

  /** Whatever deposits and withdrawals happened, the balance is the opening balance plus the logged amounts. */
  lemma BalanceIsOpeningPlusSum(a: Account)
    requires a.Valid()
    ensures a.balance == a.initial + Sum(a.log)
    ensures forall i :: 0 <= i < |a.log| ==> a.log[i].after == a.log[i].before + a.log[i].amount
  {
    ClosingIsStartPlusSum(a.initial, a.log);
  }

  /** An account opened with a non-negative balance never has a negative balance or record. */
  lemma StaysSolvent(a: Account)
    requires a.Valid() && a.initial >= 0
    ensures a.balance >= 0
    ensures forall i :: 0 <= i < |a.log| ==> a.log[i].before >= 0 && a.log[i].after >= 0
  {
    NeverNegative(a.initial, a.log);
  }

  /** A negative index reads the reversed log: `account[-1 - k] == reversed(account)[k]`. */
  lemma NegativeIndexReadsReversed(a: Account, k: int)
    requires 0 <= k < |a.log|
    ensures a.At(-1 - k) == Some(a.ReversedLog()[k])
  {
  }

  /**
   * The driver's two accounts: Guido opens with Rs. 10000.00 and makes four
   * transactions, Meghna opens with Rs. 5000.00; then they are compared.
   */
  method DriverScenario() returns (a: Account, b: Account)
    ensures a.balance == 650000 && |a.log| == 4 && b.balance == 500000 && b.log == []
    ensures a.Equal(a) && !a.Equal(b) && a.NotEqual(b)
    ensures a.GreaterOrEqual(b) && !a.LessOrEqual(b)
  {
    var counter := new Counter();
    a := new Account(counter, "Guido", 1000000);
    a := a.AddAssign(50000, "t1");
    a := a.SubAssign(300000, "t2");
    a := a.AddAssign(100000, "t3");
    a := a.SubAssign(200000, "t4");
    b := new Account(counter, "Meghna", 500000);
  }
}
