/**
 * A currency balance: additions always apply, and spending only succeeds
 * when the balance covers it.
 */
module Currency {

  /** `spend(amount)`: whether it succeeds and the balance afterwards. */
  function Spent(balance: int, amount: int): (r: (bool, int))
    ensures r.0 <==> amount <= balance
    ensures r.0 ==> r.1 == balance - amount && r.1 >= 0
    ensures !r.0 ==> r.1 == balance
  {
    if amount <= balance then (true, balance - amount) else (false, balance)
  }

  /** `add(amount)`: the balance afterwards. */
  function Deposited(balance: int, amount: int): int
  {
    balance + amount
  }

  /** Spending what was just added succeeds and restores a non-negative balance. */
  lemma AddThenSpend(balance: int, amount: int)
    requires balance >= 0
    ensures Spent(Deposited(balance, amount), amount) == (true, balance)
  {
  }

  /** A call on the manager: `add(amount)` or `spend(amount)`. */
  datatype Call = AddCall(amount: int) | SpendCall(amount: int)

  /** The balance after a sequence of calls, in order. */
  function Run(balance: int, calls: seq<Call>): int
    decreases |calls|
  {
    if calls == [] then balance
    else
      var c := calls[0];
      var next := if c.AddCall? then Deposited(balance, c.amount) else Spent(balance, c.amount).1;
      Run(next, calls[1..])
  }

  /** With non-negative amounts, no sequence of additions and spends drives the balance below zero. */
  lemma {:induction false} StaysNonNegative(balance: int, calls: seq<Call>)
    requires balance >= 0
    requires forall i :: 0 <= i < |calls| ==> calls[i].amount >= 0
    ensures Run(balance, calls) >= 0
    decreases |calls|
  {
    if calls != [] {
      var c := calls[0];
      var next := if c.AddCall? then Deposited(balance, c.amount) else Spent(balance, c.amount).1;
      assert next >= 0;
      StaysNonNegative(next, calls[1..]);
    }
  }

  class CurrencyManager {
    var balance: int

    constructor (starting: int := 0)
      ensures balance == starting
    {
      balance := starting;
    }

    method Add(amount: int) returns (b: int)
      modifies this
      ensures balance == Deposited(old(balance), amount) && b == balance
    {
      balance := balance + amount;
      return balance;
    }

    method Spend(amount: int) returns (ok: bool)
      modifies this
      ensures (ok, balance) == Spent(old(balance), amount)
    {
      if amount <= balance {
        balance := balance - amount;
        return true;
      }
      return false;
    }

    function GetBalance(): int
      reads this
    {
      balance
    }
  }

  /** 10, add 5, spend 7, fail to spend 20. */
  method CurrencyScenario()
  {
    var empty := new CurrencyManager();
    assert empty.GetBalance() == 0;
    var cm := new CurrencyManager(10);
    var b := cm.Add(5);
    assert cm.GetBalance() == 15;
    var ok := cm.Spend(7);
    assert ok && cm.GetBalance() == 8;
    ok := cm.Spend(20);
    assert !ok && cm.GetBalance() == 8;
  }
}
