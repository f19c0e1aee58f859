/** The unit-test scenarios of src/transaction_engine/processor.rs, stated as
    facts about the model, plus scenarios that pin down behaviour the tests
    leave implicit. Each test's fixed client and amounts are generalised to any
    client and any amounts satisfying the relations the test relies on; the
    test's own numbers are one instance. */
module ProcessorTests {
  import opened Transactions
  import RS = RunningStates
  import opened Processors

  function Dep(client: ClientId, tx: TxId, amount: real): TransactionInput {
    TransactionInput(Deposit, client, tx, Some(amount))
  }

  function Wd(client: ClientId, tx: TxId, amount: real): TransactionInput {
    TransactionInput(Withdrawal, client, tx, Some(amount))
  }

  /** A record that refers to transaction `tx` and carries no amount. */
  function Ref(kind: TransactionType, client: ClientId, tx: TxId): TransactionInput {
    TransactionInput(kind, client, tx, None)
  }

  /** The final state of client `c` after `records`. */
  function Final(c: ClientId, records: seq<TransactionInput>): Outcome {
    ProcessTransactions(Processor(c, records))
  }

  function State(c: ClientId, available: real, held: real, total: real, locked: bool): Outcome {
    Ok(RS.RunningState(c, available, held, total, locked))
  }

  /** One step of a replay. */
  lemma Step(p: Processor, pending: seq<TransactionInput>, s: RS.RunningState, next: RS.RunningState)
    requires |pending| > 0 && ProcessTransaction(p, pending[0], s) == Ok(next)
    ensures Replay(p, pending, s) == Replay(p, pending[1..], next)
  {
  }

  /** A lookup of an identifier that no deposit or withdrawal carries finds nothing. */
  lemma NotFound(history: seq<TransactionInput>, tx: TxId)
    requires forall i | 0 <= i < |history| :: !Targets(history[i], tx)
    ensures FindTransaction(history, tx) == None
  {
    FindTransactionIsFirst(history, tx);
  }

  /** handle_deposit_transaction: 1.1111 deposited is 1.1111 available. */
  lemma HandleDeposit(c: ClientId, a: real)
    requires a > 0.0
    ensures Final(c, [Dep(c, 1, a)]) == State(c, a, 0.0, a, false)
  {
    var h := [Dep(c, 1, a)];
    Step(Processor(c, h), h, RS.New(c), RS.Deposit(RS.New(c), a));
  }

  /** handle_deposit_and_withdrawal: 1.1111 in, 0.1111 out, 1.0 left. */
  lemma HandleDepositAndWithdrawal(c: ClientId, a: real, b: real)
    requires a > 0.0 && b <= a
    ensures Final(c, [Dep(c, 1, a), Wd(c, 2, b)]) == State(c, a - b, 0.0, a - b, false)
  {
    var h := [Dep(c, 1, a), Wd(c, 2, b)];
    var p := Processor(c, h);
    var s1 := RS.Deposit(RS.New(c), a);
    Step(p, h, RS.New(c), s1);
    Step(p, h[1..], s1, RS.Withdraw(s1, b));
  }

  /** handle_ignore_withdraw_more_than_available_funds: 1.0 in, 2.0 refused. */
  lemma IgnoreWithdrawalBeyondAvailable(c: ClientId, a: real, b: real)
    requires a > 0.0 && b > a
    ensures Final(c, [Dep(c, 1, a), Wd(c, 2, b)]) == State(c, a, 0.0, a, false)
  {
    var h := [Dep(c, 1, a), Wd(c, 2, b)];
    var p := Processor(c, h);
    var s1 := RS.Deposit(RS.New(c), a);
    Step(p, h, RS.New(c), s1);
    Step(p, h[1..], s1, s1);
  }

  /** The first two records of the dispute tests: deposits `a` (tx 1) and `b` (tx 2). */
  lemma TwoDeposits(c: ClientId, a: real, b: real, h: seq<TransactionInput>)
    requires a > 0.0 && b > 0.0
    requires |h| >= 2 && h[0] == Dep(c, 1, a) && h[1] == Dep(c, 2, b)
    ensures Replay(Processor(c, h), h, RS.New(c)) ==
              Replay(Processor(c, h), h[2..], RS.RunningState(c, a + b, 0.0, a + b, false))
  {
    var p := Processor(c, h);
    var s0 := RS.New(c);
    var s1 := RS.RunningState(c, a, 0.0, a, false);
    DepositCredits(p, h[0], s0, a);
    assert s0.(total := s0.total + a, available := s0.available + a) == s1;
    Step(p, h, s0, s1);
    DepositCredits(p, h[1], s1, b);
    Step(p, h[1..], s1, RS.RunningState(c, a + b, 0.0, a + b, false));
    assert h[1..][1..] == h[2..];
  }

  /** Under history `h`, tx 2 is the second record. */
  lemma SecondIsTx2(h: seq<TransactionInput>)
    requires |h| >= 2 && Targets(h[1], 2) && !Targets(h[0], 2)
    ensures FindTransaction(h, 2) == Some(h[1])
  {
    assert h[1..][0] == h[1];
  }

  /** handle_dispute_amount: 100 and 50 deposited, the 50 disputed. */
  lemma HandleDispute(c: ClientId, a: real, b: real)
    requires a > 0.0 && b > 0.0
    ensures Final(c, [Dep(c, 1, a), Dep(c, 2, b), Ref(Dispute, c, 2)]) == State(c, a, b, a + b, false)
  {
    var h := [Dep(c, 1, a), Dep(c, 2, b), Ref(Dispute, c, 2)];
    var p := Processor(c, h);
    var s2 := RS.RunningState(c, a + b, 0.0, a + b, false);
    TwoDeposits(c, a, b, h);
    SecondIsTx2(h);
    DisputeHolds(p, h[2], s2, b);
    Step(p, h[2..], s2, RS.Hold(s2, b));
  }

  /** handle_resolved_amount: the disputed 50 is resolved again. */
  lemma HandleResolve(c: ClientId, a: real, b: real)
    requires a > 0.0 && b > 0.0
    ensures Final(c, [Dep(c, 1, a), Dep(c, 2, b), Ref(Dispute, c, 2), Ref(Resolve, c, 2)])
            == State(c, a + b, 0.0, a + b, false)
  {
    var h := [Dep(c, 1, a), Dep(c, 2, b), Ref(Dispute, c, 2), Ref(Resolve, c, 2)];
    var p := Processor(c, h);
    var s2 := RS.RunningState(c, a + b, 0.0, a + b, false);
    var s3 := RS.Hold(s2, b);
    TwoDeposits(c, a, b, h);
    SecondIsTx2(h);
    DisputeHolds(p, h[2], s2, b);
    Step(p, h[2..], s2, s3);
    assert h[2..][1..] == h[3..];
    DisputeThenResolve(p, h[2], h[3], s2);
    Step(p, h[3..], s3, s2);
  }

  /** handle_chargeback_deposit_amount: the disputed deposit of 50 is charged back. */
  lemma HandleChargebackOfDeposit(c: ClientId, a: real, b: real)
    requires a > 0.0 && b > 0.0
    ensures Final(c, [Dep(c, 1, a), Dep(c, 2, b), Ref(Dispute, c, 2), Ref(Chargeback, c, 2)])
            == State(c, a, 0.0, a, true)
  {
    var h := [Dep(c, 1, a), Dep(c, 2, b), Ref(Dispute, c, 2), Ref(Chargeback, c, 2)];
    var p := Processor(c, h);
    var s2 := RS.RunningState(c, a + b, 0.0, a + b, false);
    var s3 := RS.Hold(s2, b);
    TwoDeposits(c, a, b, h);
    SecondIsTx2(h);
    DisputeHolds(p, h[2], s2, b);
    Step(p, h[2..], s2, s3);
    assert h[2..][1..] == h[3..];
    ChargebackOfDeposit(p, h[3], s3, b);
    Step(p, h[3..], s3, RS.ChargebackDeposit(s3, b));
  }

  /** handle_chargeback_withdrawal_amount: 100 in, 50 out, the withdrawal
      disputed and charged back. */
  lemma HandleChargebackOfWithdrawal(c: ClientId, a: real, b: real)
    requires a > 0.0 && 0.0 < b <= a
    ensures Final(c, [Dep(c, 1, a), Wd(c, 2, b), Ref(Dispute, c, 2), Ref(Chargeback, c, 2)])
            == State(c, a, 0.0, a, true)
  {
    var h := [Dep(c, 1, a), Wd(c, 2, b), Ref(Dispute, c, 2), Ref(Chargeback, c, 2)];
    var p := Processor(c, h);
    var s1 := RS.Deposit(RS.New(c), a);
    var s2 := RS.Withdraw(s1, b);
    var s3 := RS.Hold(s2, b);
    Step(p, h, RS.New(c), s1);
    assert h[1..][1..] == h[2..];
    Step(p, h[1..], s1, s2);
    SecondIsTx2(h);
    DisputeHolds(p, h[2], s2, b);
    Step(p, h[2..], s2, s3);
    assert h[2..][1..] == h[3..];
    ChargebackOfWithdrawal(p, h[3], s3, b);
    Step(p, h[3..], s3, RS.ChargebackWithdrawal(s3, b));
  }

  /** The three "unknown transaction" tests share this shape: two deposits, a
      dispute of the second, and a fourth record of kind `k` for tx 99. */
  lemma IgnoreUnknownAfterDispute(c: ClientId, a: real, b: real, k: TransactionType)
    requires a > 0.0 && b > 0.0 && !MovesFunds(k)
    ensures Final(c, [Dep(c, 1, a), Dep(c, 2, b), Ref(Dispute, c, 2), Ref(k, c, 99)])
            == State(c, a, b, a + b, false)
  {
    var h := [Dep(c, 1, a), Dep(c, 2, b), Ref(Dispute, c, 2), Ref(k, c, 99)];
    var p := Processor(c, h);
    var s2 := RS.RunningState(c, a + b, 0.0, a + b, false);
    var s3 := RS.RunningState(c, a, b, a + b, false);
    TwoDeposits(c, a, b, h);
    SecondIsTx2(h);
    DisputeHolds(p, h[2], s2, b);
    Step(p, h[2..], s2, s3);
    assert h[2..][1..] == h[3..];
    NotFound(h, 99);
    Step(p, h[3..], s3, s3);
    assert h[3..][1..] == [];
  }

  /** handle_ignore_chargeback_if_invalid_transaction. */
  lemma IgnoreChargebackOfUnknownTx(c: ClientId, a: real, b: real)
    requires a > 0.0 && b > 0.0
    ensures Final(c, [Dep(c, 1, a), Dep(c, 2, b), Ref(Dispute, c, 2), Ref(Chargeback, c, 99)])
            == State(c, a, b, a + b, false)
  {
    IgnoreUnknownAfterDispute(c, a, b, Chargeback);
  }

  /** handle_ignore_resolve_if_invalid_transaction builds a second dispute, not
      a resolve; this is that test as written. */
  lemma IgnoreSecondDisputeOfUnknownTx(c: ClientId, a: real, b: real)
    requires a > 0.0 && b > 0.0
    ensures Final(c, [Dep(c, 1, a), Dep(c, 2, b), Ref(Dispute, c, 2), Ref(Dispute, c, 99)])
            == State(c, a, b, a + b, false)
  {
    IgnoreUnknownAfterDispute(c, a, b, Dispute);
  }

  /** The scenario that test's name describes: a resolve of an unknown transaction. */
  lemma IgnoreResolveOfUnknownTx(c: ClientId, a: real, b: real)
    requires a > 0.0 && b > 0.0
    ensures Final(c, [Dep(c, 1, a), Dep(c, 2, b), Ref(Dispute, c, 2), Ref(Resolve, c, 99)])
            == State(c, a, b, a + b, false)
  {
    IgnoreUnknownAfterDispute(c, a, b, Resolve);
  }

  /** handle_ignore_dispute_if_invalid_transaction. */
  lemma IgnoreDisputeOfUnknownTx(c: ClientId, a: real, b: real)
    requires a > 0.0 && b > 0.0
    ensures Final(c, [Dep(c, 1, a), Dep(c, 2, b), Ref(Dispute, c, 99)])
            == State(c, a + b, 0.0, a + b, false)
  {
    var h := [Dep(c, 1, a), Dep(c, 2, b), Ref(Dispute, c, 99)];
    var p := Processor(c, h);
    var s2 := RS.RunningState(c, a + b, 0.0, a + b, false);
    TwoDeposits(c, a, b, h);
    NotFound(h, 99);
    Step(p, h[2..], s2, s2);
  }

  /** handle_ignore_deposit_if_zero_amount, for any amount that is not positive. */
  lemma IgnoreNonPositiveDeposit(c: ClientId, a: real, z: real)
    requires a > 0.0 && z <= 0.0
    ensures Final(c, [Dep(c, 1, a), Dep(c, 2, z)]) == State(c, a, 0.0, a, false)
  {
    var h := [Dep(c, 1, a), Dep(c, 2, z)];
    var p := Processor(c, h);
    var s1 := RS.Deposit(RS.New(c), a);
    Step(p, h, RS.New(c), s1);
    Step(p, h[1..], s1, s1);
  }

  /** Lookups see the whole history: a dispute before its deposit still holds it. */
  lemma DisputeBeforeItsDeposit(c: ClientId, a: real)
    requires a > 0.0
    ensures Final(c, [Ref(Dispute, c, 7), Dep(c, 7, a)]) == State(c, 0.0, a, a, false)
  {
    var h := [Ref(Dispute, c, 7), Dep(c, 7, a)];
    var p := Processor(c, h);
    var s1 := RS.Hold(RS.New(c), a);
    assert FindTransaction(h, 7) == Some(h[1]) by {
      assert h[1..][0] == h[1];
    }
    Step(p, h, RS.New(c), s1);
    Step(p, h[1..], s1, RS.Deposit(s1, a));
  }

  /** A locked account keeps accepting deposits. */
  lemma LockedAccountStillTakesDeposits(c: ClientId, a: real, b: real)
    requires a > 0.0 && b > 0.0
    ensures Final(c, [Dep(c, 1, a), Ref(Dispute, c, 1), Ref(Chargeback, c, 1), Dep(c, 2, b)])
            == State(c, b, 0.0, b, true)
  {
    var h := [Dep(c, 1, a), Ref(Dispute, c, 1), Ref(Chargeback, c, 1), Dep(c, 2, b)];
    var p := Processor(c, h);
    var s1 := RS.Deposit(RS.New(c), a);
    var s2 := RS.Hold(s1, a);
    var s3 := RS.ChargebackDeposit(s2, a);
    assert FindTransaction(h, 1) == Some(h[0]);
    Step(p, h, RS.New(c), s1);
    assert h[1..][1..] == h[2..];
    Step(p, h[1..], s1, s2);
    assert h[2..][1..] == h[3..];
    Step(p, h[2..], s2, s3);
    Step(p, h[3..], s3, RS.Deposit(s3, b));
  }

  /** A resolve without a prior dispute drives `held` negative. */
  lemma ResolveWithoutDispute(c: ClientId, a: real)
    requires a > 0.0
    ensures Final(c, [Dep(c, 1, a), Ref(Resolve, c, 1)]) == State(c, 2.0 * a, -a, a, false)
  {
    var h := [Dep(c, 1, a), Ref(Resolve, c, 1)];
    var p := Processor(c, h);
    var s1 := RS.Deposit(RS.New(c), a);
    assert FindTransaction(h, 1) == Some(h[0]);
    Step(p, h, RS.New(c), s1);
    Step(p, h[1..], s1, RS.Release(s1, a));
  }

  /** A dispute of a deposit without an amount aborts the replay. */
  lemma DisputeOfAmountlessDeposit(c: ClientId)
    ensures Final(c, [Ref(Deposit, c, 1), Ref(Dispute, c, 1)]) == MissingAmount(1)
  {
    var h := [Ref(Deposit, c, 1), Ref(Dispute, c, 1)];
    var p := Processor(c, h);
    assert FindTransaction(h, 1) == Some(h[0]);
    Step(p, h, RS.New(c), RS.New(c));
  }
}
