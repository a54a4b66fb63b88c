/** The wallet screen (components/Wallet.tsx): a deposit flow that moves
    through four steps and a ledger whose balance is a fold over its entries.
    This ledger belongs to the screen alone: a deposit never touches the
    signed-in user's balance. */
module Wallet {
  import opened Types
  import opened Decimal

  datatype Step = InputStep | PayStep | Verifying | SuccessStep

  /** The quick-pick buttons under the amount field. */
  const QuickPicks: seq<nat> := [50, 100, 200, 500]

  /** The ledger the screen starts with: a settled deposit of 500 and a
      settled entry fee of 50 (their timestamps are not modelled). */
  const InitialLedger: seq<Transaction> := [
    Transaction("1", 500, DepositTx, Succeeded),
    Transaction("2", 50, EntryTx, Succeeded)
  ]

  // ---------------------------------------------------------------------
  // The displayed balance
  // ---------------------------------------------------------------------

  /** One step of the balance's `reduce`: a settled deposit or win adds its
      amount, a settled entry subtracts it, anything unsettled is skipped. */
  function Apply(acc: int, tx: Transaction): int
  {
    if tx.status == Succeeded then
      (if tx.kind == DepositTx || tx.kind == WinTx then acc + tx.amount else acc - tx.amount)
    else acc
  }

  /** `txs.reduce(Apply, acc)`, from the first entry to the last. */
  function Fold(acc: int, txs: seq<Transaction>): int
    decreases |txs|
  {
    if txs == [] then acc else Fold(Apply(acc, txs[0]), txs[1..])
  }

  /** The "Total Balance" figure. */
  function Balance(txs: seq<Transaction>): int
  {
    Fold(0, txs)
  }

  /** What one entry contributes to the balance. */
  function Signed(tx: Transaction): (d: int)
    ensures tx.status != Succeeded ==> d == 0
    ensures tx.status == Succeeded && tx.kind != EntryTx ==> d == tx.amount
    ensures tx.status == Succeeded && tx.kind == EntryTx ==> d == -tx.amount
  {
    Apply(0, tx)
  }

  /** The fold's starting value only shifts its result. */
  lemma {:induction false} FoldShift(acc: int, txs: seq<Transaction>)
    ensures Fold(acc, txs) == acc + Balance(txs)
    decreases |txs|
  {
    if txs != [] {
      FoldShift(Apply(acc, txs[0]), txs[1..]);
      FoldShift(Apply(0, txs[0]), txs[1..]);
    }
  }

  /** The empty ledger shows 0; a new entry in front adds its contribution. */
  lemma BalancePrepend(tx: Transaction, txs: seq<Transaction>)
    ensures Balance([]) == 0
    ensures Balance([tx] + txs) == Signed(tx) + Balance(txs)
  {
    assert ([tx] + txs)[1..] == txs;
    FoldShift(Signed(tx), txs);
  }

  /** The balance of two ledgers laid end to end is the sum of their balances,
      so it does not depend on where an entry sits. */
  lemma {:induction false} BalanceConcat(a: seq<Transaction>, b: seq<Transaction>)
    ensures Balance(a + b) == Balance(a) + Balance(b)
  {
    if a == [] {
      assert a + b == b;
    } else {
      BalanceConcat(a[1..], b);
      assert a + b == [a[0]] + (a[1..] + b);
      BalancePrepend(a[0], a[1..] + b);
      BalancePrepend(a[0], a[1..]);
    }
  }

  /** The starting ledger shows 450. */
  lemma InitialBalance()
    ensures Balance(InitialLedger) == 450
  {
    BalancePrepend(InitialLedger[0], InitialLedger[1..]);
    BalancePrepend(InitialLedger[1], []);
    assert InitialLedger[1..] == [InitialLedger[1]] + [];
  }

  /** A settled deposit of `a` in front of the ledger raises the balance by
      exactly `a`. */
  lemma DepositRaisesBalance(txs: seq<Transaction>, id: string, a: int)
    ensures Balance([Transaction(id, a, DepositTx, Succeeded)] + txs) == Balance(txs) + a
  {
    BalancePrepend(Transaction(id, a, DepositTx, Succeeded), txs);
  }

  // ---------------------------------------------------------------------
  // The amount guard
  // ---------------------------------------------------------------------

  /** `handleDeposit`'s guard: the amount is not empty and `Number` gives a
      number. There is no minimum and no positivity test. */
  predicate Accepted(amount: string)
  {
    amount != "" && NumberOf(amount).Some?
  }

  /** The empty amount is refused although `Number("")` is 0; text is
      refused; zero and negative amounts pass. */
  lemma AcceptedExamples()
    ensures !Accepted("") && NumberOf("") == Some(0)
    ensures !Accepted("ten")
    ensures Accepted("0") && NumberOf("0") == Some(0)
    ensures Accepted("-5") && NumberOf("-5") == Some(-5)
  {
    assert !IsDigit("ten"[0]);
    assert "0"[..0] == [];
    NumberOfNegative(5);
    assert ToDecimal(5) == "5";
  }

  /** Every quick-pick amount passes the guard and reads back as itself. */
  lemma QuickPickAccepted(v: nat)
    requires v in QuickPicks
    ensures Accepted(ToDecimal(v)) && NumberOf(ToDecimal(v)) == Some(v)
  {
    ToDecimalRoundTrip(v);
    NumberOfToDecimal(v);
  }

  // ---------------------------------------------------------------------
  // The component's state
  // ---------------------------------------------------------------------

  class Wallet {
    var amount: string
    var step: Step
    var transactions: seq<Transaction>

    /** Past the input step the amount is one the guard accepted: only the
        input step shows the field and the quick picks. */
    predicate Valid()
      reads this
    {
      step != InputStep ==> Accepted(amount)
    }

    /** The deposit the verification step is settling. */
    function PendingAmount(): int
      reads this
      requires Valid() && step != InputStep
    {
      NumberOf(amount).value
    }

    function DisplayedBalance(): int
      reads this
    {
      Balance(transactions)
    }

    constructor ()
      ensures Valid() && amount == "" && step == InputStep && transactions == InitialLedger
    {
      amount := "";
      step := InputStep;
      transactions := InitialLedger;
    }

    /** Typing in the amount field. */
    method SetAmount(s: string)
      requires Valid() && step == InputStep
      modifies this`amount
      ensures Valid() && amount == s
    {
      amount := s;
    }

    /** A quick-pick button: sets the amount, keeps the step. */
    method QuickPick(v: nat)
      requires Valid() && step == InputStep && v in QuickPicks
      modifies this`amount
      ensures Valid() && amount == ToDecimal(v) && NumberOf(amount) == Some(v)
    {
      amount := ToDecimal(v);
      QuickPickAccepted(v);
    }

    /** "Proceed to Pay": moves to the payment step only for an accepted
        amount, and otherwise does nothing. */
    method HandleDeposit()
      requires Valid() && step == InputStep
      modifies this`step
      ensures Valid()
      ensures step == if Accepted(amount) then PayStep else InputStep
    {
      if amount == "" || NumberOf(amount).None? {
        return;
      }
      step := PayStep;
    }

    /** "I Have Paid": starts the verification; the timer is armed. */
    method SimulatePayment()
      requires Valid() && step == PayStep
      modifies this`step
      ensures Valid() && step == Verifying
    {
      step := Verifying;
    }

    /** "Cancel" on the payment step: back to the input, amount kept. */
    method Cancel()
      requires Valid() && step == PayStep
      modifies this`step
      ensures Valid() && step == InputStep
    {
      step := InputStep;
    }

    /** The timer's callback: exactly one settled deposit of the amount goes
        in front of the ledger, the older entries stay as they were, and the
        flow reports success. */
    method PaymentSettled(id: string)
      requires Valid() && step == Verifying
      modifies this`transactions, this`step
      ensures Valid() && step == SuccessStep
      ensures transactions == [Transaction(id, old(PendingAmount()), DepositTx, Succeeded)] + old(transactions)
      ensures DisplayedBalance() == old(DisplayedBalance()) + old(PendingAmount())
    {
      var tx := Transaction(id, NumberOf(amount).value, DepositTx, Succeeded);
      DepositRaisesBalance(transactions, id, tx.amount);
      transactions := [tx] + transactions;
      step := SuccessStep;
    }

    /** "Go Back" on the success step: back to the input, amount cleared. */
    method GoBack()
      requires Valid() && step == SuccessStep
      modifies this`step, this`amount
      ensures Valid() && step == InputStep && amount == ""
    {
      step := InputStep;
      amount := "";
    }
  }

  /** A deposit of 200 through the quick pick, from a fresh screen: one
      settled deposit of 200 is added and the balance goes from 450 to 650. */
  method DepositScenario() returns (w: Wallet)
    ensures fresh(w) && w.Valid() && w.step == SuccessStep
    ensures w.transactions == [Transaction("3", 200, DepositTx, Succeeded)] + InitialLedger
    ensures w.DisplayedBalance() == 650
  {
    w := new Wallet();
    InitialBalance();
    w.QuickPick(200);
    w.HandleDeposit();
    w.SimulatePayment();
    w.PaymentSettled("3");
  }
}
