/** Parsed ledger events: the record every other part of the engine consumes.
    Mirrors src/transaction_engine/transaction.rs. */
module Transactions {

  /** An optional value; the `amount` column may be absent. */
  datatype Option<+T> = None | Some(value: T)

  /** Client identifiers are unsigned 16-bit integers. */
  type ClientId = c: int | 0 <= c < 0x1_0000

  /** Transaction identifiers are unsigned 32-bit integers. */
  type TxId = x: int | 0 <= x < 0x1_0000_0000

  /** The five kinds of ledger event; equality between kinds is structural. */
  datatype TransactionType = Deposit | Withdrawal | Dispute | Resolve | Chargeback

  /** One input row. The amount is an exact decimal here instead of a binary float. */
  datatype TransactionInput = TransactionInput(
    kind: TransactionType,
    client: ClientId,
    tx: TxId,
    amount: Option<real>)

  /** Deposits and withdrawals move funds; the other kinds only refer to one of them. */
  predicate MovesFunds(kind: TransactionType) {
    kind == Deposit || kind == Withdrawal
  }
}
