/** One client's append-only history and its replay into a running balance.
    Mirrors src/transaction_engine/processor.rs. */
module Processors {
  import opened Transactions
  import RS = RunningStates

  /** A client together with every record routed to it, in arrival order. */
  datatype Processor = Processor(client: ClientId, transactions: seq<TransactionInput>)

  /** The result of a replay. `process_transaction` panics (`unwrap` on `None`)
      when a dispute, resolve or chargeback refers to a deposit or withdrawal
      that carries no amount; `MissingAmount` names that record. */
  datatype Outcome = Ok(state: RS.RunningState) | MissingAmount(tx: TxId)

  /** `t` is a deposit or withdrawal with identifier `tx`. */
  predicate Targets(t: TransactionInput, tx: TxId) {
    MovesFunds(t.kind) && t.tx == tx
  }

  /** `history[i]` is the earliest record of `history` that `Targets` `tx`. */
  predicate FirstTargetAt(history: seq<TransactionInput>, tx: TxId, i: int) {
    && 0 <= i < |history|
    && Targets(history[i], tx)
    && forall j | 0 <= j < i :: !Targets(history[j], tx)
  }

  function New(client: ClientId): (p: Processor)
    ensures p.client == client && |p.transactions| == 0
  {
    Processor(client, [])
  }

  /** Appends one record at the end of the history. */
  function AddTransaction(p: Processor, t: TransactionInput): (r: Processor)
    ensures r.client == p.client
    ensures |r.transactions| == |p.transactions| + 1
    ensures r.transactions[..|p.transactions|] == p.transactions
    ensures r.transactions[|p.transactions|] == t
  {
    p.(transactions := p.transactions + [t])
  }

  /** The first deposit or withdrawal with identifier `tx`, searching the whole
      history, records after the referring one included. */
  function FindTransaction(history: seq<TransactionInput>, tx: TxId): (r: Option<TransactionInput>)
    ensures r.Some? ==> Targets(r.value, tx) && r.value in history
    decreases |history|
  {
    if |history| == 0 then None
    else if Targets(history[0], tx) then Some(history[0])
    else FindTransaction(history[1..], tx)
  }

  /** `FindTransaction` finds nothing exactly when no record targets `tx`, and
      otherwise the earliest record that does. */
  lemma {:induction false} FindTransactionIsFirst(history: seq<TransactionInput>, tx: TxId)
    ensures FindTransaction(history, tx).None? <==> forall i | 0 <= i < |history| :: !Targets(history[i], tx)
    ensures FindTransaction(history, tx).Some? ==>
              exists i | 0 <= i < |history| :: FirstTargetAt(history, tx, i) && history[i] == FindTransaction(history, tx).value
    decreases |history|
  {
    if |history| > 0 {
      if Targets(history[0], tx) {
        assert FirstTargetAt(history, tx, 0);
      } else {
        var rest := history[1..];
        FindTransactionIsFirst(rest, tx);
        assert forall i | 1 <= i < |history| :: history[i] == rest[i - 1];
        if FindTransaction(rest, tx).Some? {
          var k :| 0 <= k < |rest| && FirstTargetAt(rest, tx, k) && rest[k] == FindTransaction(rest, tx).value;
          assert FirstTargetAt(history, tx, k + 1);
        }
      }
    }
  }

  /** Applies one record to `s`; lookups go through the processor's whole history. */
  function ProcessTransaction(p: Processor, t: TransactionInput, s: RS.RunningState): (r: Outcome)
    ensures MovesFunds(t.kind) ==> r.Ok?
    ensures MovesFunds(t.kind) && t.amount.None? ==> r == Ok(s)
    ensures !MovesFunds(t.kind) && FindTransaction(p.transactions, t.tx).None? ==> r == Ok(s)
    ensures r.MissingAmount? <==>
              && !MovesFunds(t.kind)
              && FindTransaction(p.transactions, t.tx).Some?
              && FindTransaction(p.transactions, t.tx).value.amount.None?
    ensures r.Ok? ==> RS.Succeeds(s, r.state)
    ensures r.Ok? && RS.Balanced(s) ==> RS.Balanced(r.state)
    // the lookup never yields a dispute, resolve or chargeback, so a chargeback
    // that finds its target always locks: the invalid-target arm is unreachable
    ensures t.kind == Chargeback && FindTransaction(p.transactions, t.tx).Some? && r.Ok? ==> r.state.locked
  {
    match t.kind
    case Deposit =>
      if t.amount.Some? then Ok(RS.Deposit(s, t.amount.value)) else Ok(s)
    case Withdrawal =>
      if t.amount.Some? then Ok(RS.Withdraw(s, t.amount.value)) else Ok(s)
    case Dispute =>
      var found := FindTransaction(p.transactions, t.tx);
      if found.None? then Ok(s)
      else if found.value.amount.None? then MissingAmount(found.value.tx)
      else Ok(RS.Hold(s, found.value.amount.value))
    case Resolve =>
      var found := FindTransaction(p.transactions, t.tx);
      if found.None? then Ok(s)
      else if found.value.amount.None? then MissingAmount(found.value.tx)
      else Ok(RS.Release(s, found.value.amount.value))
    case Chargeback =>
      var found := FindTransaction(p.transactions, t.tx);
      if found.None? then Ok(s)
      else
        match found.value.kind
        case Deposit =>
          if found.value.amount.None? then MissingAmount(found.value.tx)
          else Ok(RS.ChargebackDeposit(s, found.value.amount.value))
        case Withdrawal =>
          if found.value.amount.None? then MissingAmount(found.value.tx)
          else Ok(RS.ChargebackWithdrawal(s, found.value.amount.value))
        case _ =>
          Ok(s)
  }

  /** Applies `pending` to `s` in order, stopping at the first abort. */
  function Replay(p: Processor, pending: seq<TransactionInput>, s: RS.RunningState): (r: Outcome)
    ensures r.Ok? ==> RS.Succeeds(s, r.state)
    ensures r.Ok? && RS.Balanced(s) ==> RS.Balanced(r.state)
    decreases |pending|
  {
    if |pending| == 0 then Ok(s)
    else
      match ProcessTransaction(p, pending[0], s)
      case MissingAmount(tx) => MissingAmount(tx)
      case Ok(next) => Replay(p, pending[1..], next)
  }

  /** The client's final balances: its whole history replayed from a fresh account. */
  function ProcessTransactions(p: Processor): (r: Outcome)
    ensures r.Ok? ==> r.state.client == p.client && RS.Balanced(r.state)
  {
    Replay(p, p.transactions, RS.New(p.client))
  }

  /** The loop of `process_transactions`: one pass over the history, updating
      a running state. */
  method ProcessTransactionsLoop(p: Processor) returns (r: Outcome)
    ensures r == ProcessTransactions(p)
  {
    var state := RS.New(p.client);
    var i := 0;
    while i < |p.transactions|
      invariant 0 <= i <= |p.transactions|
      invariant ProcessTransactions(p) == Replay(p, p.transactions[i..], state)
    {
      var step := ProcessTransaction(p, p.transactions[i], state);
      assert p.transactions[i..][1..] == p.transactions[i + 1..];
      if step.MissingAmount? {
        return step;
      }
      state := step.state;
      i := i + 1;
    }
    r := Ok(state);
  }

  /** Replaying `xs + [t]` is replaying `xs` and then applying `t`: the replay
      is a left fold of `ProcessTransaction`. */
  lemma {:induction false} ReplaySnoc(p: Processor, xs: seq<TransactionInput>, t: TransactionInput, s: RS.RunningState)
    ensures Replay(p, xs + [t], s) ==
              match Replay(p, xs, s)
              case MissingAmount(tx) => MissingAmount(tx)
              case Ok(mid) => ProcessTransaction(p, t, mid)
    decreases |xs|
  {
    if |xs| == 0 {
      assert xs + [t] == [t];
      assert [t][1..] == [];
    } else {
      assert (xs + [t])[1..] == xs[1..] + [t];
      match ProcessTransaction(p, xs[0], s)
      case MissingAmount(tx) =>
      case Ok(next) => ReplaySnoc(p, xs[1..], t, next);
    }
  }

  /** A history of funds movements only never aborts and never holds anything. */
  lemma {:induction false} FundsMovementsHoldNothing(p: Processor, pending: seq<TransactionInput>, s: RS.RunningState)
    requires forall i | 0 <= i < |pending| :: MovesFunds(pending[i].kind)
    ensures Replay(p, pending, s).Ok?
    ensures Replay(p, pending, s).state.held == s.held
    decreases |pending|
  {
    if |pending| > 0 {
      var next := ProcessTransaction(p, pending[0], s);
      assert forall i | 0 <= i < |pending[1..]| :: pending[1..][i] == pending[i + 1];
      FundsMovementsHoldNothing(p, pending[1..], next.state);
    }
  }

  /** A deposit record of `a` raises total and available by `a` when `a` is
      positive, and is ignored otherwise. */
  lemma DepositCredits(p: Processor, t: TransactionInput, s: RS.RunningState, a: real)
    requires t.kind == Deposit && t.amount == Some(a)
    ensures a > 0.0 && RS.Balanced(s) ==>
              ProcessTransaction(p, t, s) == Ok(s.(total := s.total + a, available := s.available + a))
    ensures a <= 0.0 ==> ProcessTransaction(p, t, s) == Ok(s)
  {
  }

  /** A withdrawal record of `a` lowers total and available by `a` when the
      available funds cover it, and never succeeds when `a` exceeds them. */
  lemma WithdrawalDebits(p: Processor, t: TransactionInput, s: RS.RunningState, a: real)
    requires t.kind == Withdrawal && t.amount == Some(a)
    ensures a <= s.available && RS.Balanced(s) ==>
              ProcessTransaction(p, t, s) == Ok(s.(total := s.total - a, available := s.available - a))
    ensures a > s.available ==> ProcessTransaction(p, t, s) == Ok(s)
  {
  }

  /** Resolving a found record with amount `a` moves `a` from held back to available. */
  lemma ResolveReleases(p: Processor, t: TransactionInput, s: RS.RunningState, a: real)
    requires t.kind == Resolve && RS.Balanced(s)
    requires FindTransaction(p.transactions, t.tx).Some?
    requires FindTransaction(p.transactions, t.tx).value.amount == Some(a)
    ensures ProcessTransaction(p, t, s) == Ok(s.(held := s.held - a, available := s.available + a))
  {
  }

  /** Disputing a found record with amount `a` moves `a` from available to held. */
  lemma DisputeHolds(p: Processor, t: TransactionInput, s: RS.RunningState, a: real)
    requires t.kind == Dispute && RS.Balanced(s)
    requires FindTransaction(p.transactions, t.tx).Some?
    requires FindTransaction(p.transactions, t.tx).value.amount == Some(a)
    ensures ProcessTransaction(p, t, s).Ok?
    ensures ProcessTransaction(p, t, s).state ==
              s.(held := s.held + a, available := s.available - a)
  {
  }

  /** A resolve after a dispute of the same identifier restores the state. */
  lemma DisputeThenResolve(p: Processor, d: TransactionInput, r: TransactionInput, s: RS.RunningState)
    requires d.kind == Dispute && r.kind == Resolve && d.tx == r.tx
    requires RS.Balanced(s)
    requires ProcessTransaction(p, d, s).Ok?
    ensures ProcessTransaction(p, r, ProcessTransaction(p, d, s).state) == Ok(s)
  {
  }

  /** A chargeback of a found deposit of `a` takes `a` off total and held and locks. */
  lemma ChargebackOfDeposit(p: Processor, t: TransactionInput, s: RS.RunningState, a: real)
    requires t.kind == Chargeback
    requires FindTransaction(p.transactions, t.tx).Some?
    requires FindTransaction(p.transactions, t.tx).value.kind == Deposit
    requires FindTransaction(p.transactions, t.tx).value.amount == Some(a)
    ensures ProcessTransaction(p, t, s).Ok?
    ensures var r := ProcessTransaction(p, t, s).state;
            r.total == s.total - a && r.held == s.held - a && r.locked
  {
  }

  /** A chargeback of a found withdrawal of `a` adds `a` back to total. */
  lemma ChargebackOfWithdrawal(p: Processor, t: TransactionInput, s: RS.RunningState, a: real)
    requires t.kind == Chargeback
    requires FindTransaction(p.transactions, t.tx).Some?
    requires FindTransaction(p.transactions, t.tx).value.kind == Withdrawal
    requires FindTransaction(p.transactions, t.tx).value.amount == Some(a)
    ensures ProcessTransaction(p, t, s).Ok?
    ensures var r := ProcessTransaction(p, t, s).state;
            r.total == s.total + a && r.held == s.held - a && r.locked
  {
  }

  /** Once a replay has locked the account, no later record unlocks it. */
  lemma {:induction false} LockedStaysLocked(p: Processor, xs: seq<TransactionInput>, ys: seq<TransactionInput>, s: RS.RunningState)
    requires Replay(p, xs, s).Ok? && Replay(p, xs, s).state.locked
    requires Replay(p, xs + ys, s).Ok?
    ensures Replay(p, xs + ys, s).state.locked
    decreases |xs|
  {
    if |xs| == 0 {
      assert xs + ys == ys;
    } else {
      assert (xs + ys)[1..] == xs[1..] + ys;
      LockedStaysLocked(p, xs[1..], ys, ProcessTransaction(p, xs[0], s).state);
    }
  }
}
