/**
 * The transaction log of a bank account as values: the records a deposit or
 * a withdrawal appends, what it means for a log to be consistent with an
 * opening balance, and the facts that consistency implies.
 *
 * Money is counted in whole units of the smallest currency unit (paise), so
 * Rs. 500.00 is 50000.
 */
module Ledger {

  type Money = int

  /** The wall-clock time of a transaction; the model treats it as opaque text. */
  type Timestamp = string

  datatype Kind = Credit | Debit {
    /** The text the log stores as the record's kind. */
    function Label(): (s: string)
      ensures Credit? <==> s == "CREDIT"
      ensures Debit? <==> s == "DEBIT "
      ensures |s| == 6
    {
      if Credit? then "CREDIT" else "DEBIT "
    }
  }

  /**
   * One log entry: (kind, timestamp, balance before, signed amount, balance
   * after). The signed amount is the deposit for a credit and the negated
   * withdrawal for a debit.
   */
  datatype Transaction = Transaction(kind: Kind, at: Timestamp, before: Money, amount: Money, after: Money)

  /** The record's balances differ by its signed amount. */
  predicate Balanced(t: Transaction) {
    t.after == t.before + t.amount
  }

  /**
   * A record that a successful deposit or withdrawal can produce: a credit
   * adds a positive amount; a debit never leaves the balance negative.
   */
  predicate Legal(t: Transaction) {
    && Balanced(t)
    && (t.kind == Credit ==> t.amount > 0)
    && (t.kind == Debit ==> t.after >= 0)
  }

  predicate AllLegal(log: seq<Transaction>) {
    forall i :: 0 <= i < |log| ==> Legal(log[i])
  }

  /** The first record starts from `start` and each record starts where the previous one ended. */
  predicate Chains(start: Money, log: seq<Transaction>) {
    && (|log| > 0 ==> log[0].before == start)
    && (forall i, j :: 0 <= i < |log| && j == i + 1 && j < |log| ==> log[i].after == log[j].before)
  }

  /** The balance the log ends on: the last record's balance after, or `start` for an empty log. */
  function Closing(start: Money, log: seq<Transaction>): Money {
    if |log| == 0 then start else log[|log| - 1].after
  }

  /** The sum of the signed amounts in the log. */
  function Sum(log: seq<Transaction>): Money {
    if |log| == 0 then 0 else Sum(log[..|log| - 1]) + log[|log| - 1].amount
  }

  /** Dropping the last record of a chained log leaves a chained log. */
  lemma ChainsPrefix(start: Money, log: seq<Transaction>)
    requires |log| > 0 && Chains(start, log)
    ensures Chains(start, log[..|log| - 1])
    ensures log[|log| - 1].before == Closing(start, log[..|log| - 1])
  {
  }

  /** Appending a balanced record that starts at the closing balance keeps the log chained. */
  lemma ChainsAppend(start: Money, log: seq<Transaction>, t: Transaction)
    requires Chains(start, log) && t.before == Closing(start, log)
    ensures Chains(start, log + [t]) && Closing(start, log + [t]) == t.after
  {
  }

  /** The closing balance of a consistent log is the opening balance plus the sum of its signed amounts. */
  lemma {:induction false} ClosingIsStartPlusSum(start: Money, log: seq<Transaction>)
    requires Chains(start, log)
    requires forall i :: 0 <= i < |log| ==> Balanced(log[i])
    ensures Closing(start, log) == start + Sum(log)
  {
    if |log| > 0 {
      var prefix := log[..|log| - 1];
      ChainsPrefix(start, log);
      ClosingIsStartPlusSum(start, prefix);
      assert Balanced(log[|log| - 1]);
    }
  }

  /** From a non-negative opening balance, a log of legal records never closes below zero. */
  lemma {:induction false} NeverNegative(start: Money, log: seq<Transaction>)
    requires start >= 0 && Chains(start, log) && AllLegal(log)
    ensures Closing(start, log) >= 0
    ensures forall i :: 0 <= i < |log| ==> log[i].before >= 0 && log[i].after >= 0
  {
    if |log| > 0 {
      var n := |log| - 1;
      var prefix := log[..n];
      ChainsPrefix(start, log);
      assert AllLegal(prefix) by {
        forall i | 0 <= i < |prefix| ensures Legal(prefix[i]) {
          assert prefix[i] == log[i];
        }
      }
      NeverNegative(start, prefix);
      assert Legal(log[n]);
      forall i | 0 <= i < n ensures log[i].before >= 0 && log[i].after >= 0 {
        assert log[i] == prefix[i];
      }
    }
  }

  /** The sequence in reverse order. */
  function Reverse<T>(s: seq<T>): (r: seq<T>)
    ensures |r| == |s|
    ensures forall i :: 0 <= i < |s| ==> r[i] == s[|s| - 1 - i]
  {
    if s == [] then [] else Reverse(s[1..]) + [s[0]]
  }

  /** Reversing twice gives back the original sequence. */
  lemma ReverseInvolution<T>(s: seq<T>)
    ensures Reverse(Reverse(s)) == s
  {
  }
}
