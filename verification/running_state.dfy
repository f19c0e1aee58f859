/** The per-client running balance and its mutators.
    Mirrors src/transaction_engine/transaction_running_state.rs. */
module RunningStates {
  import Transactions

  /** Balances of one client while its history is replayed. */
  datatype RunningState = RunningState(
    client: Transactions.ClientId,
    available: real,
    held: real,
    total: real,
    locked: bool)

  /** The ledger invariant: whatever is not held is available. */
  predicate Balanced(s: RunningState) {
    s.available == s.total - s.held
  }

  /** `s` and `r` belong to the same client, and `r` is locked if `s` was. */
  predicate Succeeds(s: RunningState, r: RunningState) {
    r.client == s.client && (s.locked ==> r.locked)
  }

  /** A fresh, empty and unlocked account. */
  function New(client: Transactions.ClientId): (s: RunningState)
    ensures s.client == client && !s.locked
    ensures s.available == 0.0 && s.held == 0.0 && s.total == 0.0
    ensures Balanced(s)
  {
    RunningState(client, 0.0, 0.0, 0.0, false)
  }

  /** Re-establishes the ledger invariant from `total` and `held`. */
  function CalculateAvailable(s: RunningState): (r: RunningState)
    ensures Balanced(r)
    ensures r.client == s.client && r.locked == s.locked
    ensures r.total == s.total && r.held == s.held
  {
    s.(available := s.total - s.held)
  }

  /** Adds `amount` to the total, unless that would not increase it. */
  function Deposit(s: RunningState, amount: real): (r: RunningState)
    ensures amount > 0.0 ==>
              && r.total == s.total + amount
              && r.held == s.held
              && r.client == s.client && r.locked == s.locked
              && Balanced(r)
    ensures amount > 0.0 && Balanced(s) ==> r.available == s.available + amount
    ensures amount <= 0.0 ==> r == s
  {
    var newTotal := s.total + amount;
    if newTotal > s.total then CalculateAvailable(s.(total := newTotal)) else s
  }

  /** Takes `amount` off the total when enough is available; otherwise ignored. */
  function Withdraw(s: RunningState, amount: real): (r: RunningState)
    ensures s.available >= amount ==>
              && r.total == s.total - amount
              && r.held == s.held
              && r.client == s.client && r.locked == s.locked
              && Balanced(r)
    ensures s.available >= amount && Balanced(s) ==> r.available == s.available - amount
    ensures amount > s.available ==> r == s
  {
    if s.available >= amount then CalculateAvailable(s.(total := s.total - amount)) else s
  }

  /** Reverses a deposit that was disputed: the funds leave the account. */
  function ChargebackDeposit(s: RunningState, amount: real): (r: RunningState)
    ensures r.total == s.total - amount && r.held == s.held - amount
    ensures r.locked && r.client == s.client
    ensures Balanced(r)
    ensures Balanced(s) ==> r.available == s.available
  {
    Chargeback(s.(total := s.total - amount), amount)
  }

  /** Reverses a withdrawal that was disputed: the funds come back. */
  function ChargebackWithdrawal(s: RunningState, amount: real): (r: RunningState)
    ensures r.total == s.total + amount && r.held == s.held - amount
    ensures r.locked && r.client == s.client
    ensures Balanced(r)
    ensures Balanced(s) ==> r.available == s.available + 2.0 * amount
  {
    Chargeback(s.(total := s.total + amount), amount)
  }

  /** Freezes `amount`: it moves from available to held. */
  function Hold(s: RunningState, amount: real): (r: RunningState)
    ensures r.held == s.held + amount && r.total == s.total
    ensures r.client == s.client && r.locked == s.locked
    ensures Balanced(r)
    ensures Balanced(s) ==> r.available == s.available - amount
  {
    CalculateAvailable(s.(held := s.held + amount))
  }

  /** Unfreezes `amount`: it moves from held back to available. */
  function Release(s: RunningState, amount: real): (r: RunningState)
    ensures r.held == s.held - amount && r.total == s.total
    ensures r.client == s.client && r.locked == s.locked
    ensures Balanced(r)
    ensures Balanced(s) ==> r.available == s.available + amount
  {
    CalculateAvailable(s.(held := s.held - amount))
  }

  /** The part shared by both chargebacks: drop the held funds and lock the account. */
  function Chargeback(s: RunningState, amount: real): (r: RunningState)
    ensures r.held == s.held - amount && r.total == s.total
    ensures r.locked && r.client == s.client
    ensures Balanced(r)
  {
    CalculateAvailable(s.(held := s.held - amount, locked := true))
  }

  /** Releasing what was held undoes the hold exactly, on a balanced state. */
  lemma HoldThenRelease(s: RunningState, amount: real)
    requires Balanced(s)
    ensures Release(Hold(s, amount), amount) == s
  {
  }

  /** Every mutator keeps the client and never clears the lock. */
  lemma MutatorsSucceed(s: RunningState, amount: real)
    ensures Succeeds(s, Deposit(s, amount)) && Succeeds(s, Withdraw(s, amount))
    ensures Succeeds(s, Hold(s, amount)) && Succeeds(s, Release(s, amount))
    ensures Succeeds(s, ChargebackDeposit(s, amount))
    ensures Succeeds(s, ChargebackWithdrawal(s, amount))
  {
  }
}
