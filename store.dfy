/** The `transactions` table of `users_data.db`: one record per logged
    transaction, with an autoincrement primary key. */
module TransactionStore {

  /** A `date` cell. The form's date widget gives a calendar day, parsing a CSV
      column gives a date-time, and the feature step turns either into a
      number of seconds since 1970-01-01, which is what ends up stored (as text,
      since the `date` column is declared TEXT). */
  datatype DateCell =
    | Day(days: int)             // days since 1970-01-01
    | Instant(seconds: int)      // a date-time, in whole seconds since 1970-01-01
    | EpochSeconds(value: real)  // a plain number of seconds

  /** An `is_fraud` cell as the dashboard reads it back: an integer label, a
      raw byte string, or text. */
  datatype FraudCell = Int(value: int) | Raw(bytes: seq<bv8>) | Str(text: string)

  /** One row of `transactions`: its nine columns. */
  datatype Transaction = Transaction(
    id: nat,
    userEmail: string,
    date: DateCell,
    transactionType: string,
    paymentGateway: string,
    transactionState: string,
    merchantCategory: string,
    amount: real,
    isFraud: FraudCell)

  /** Ids strictly increase along the table, so no two rows share one. */
  ghost predicate IdsIncreasing(rows: seq<Transaction>)
  {
    forall i, j :: 0 <= i < j < |rows| ==> rows[i].id < rows[j].id
  }

  class TransactionTable {
    var rows: seq<Transaction>
    var nextId: nat

    /** The autoincrement key stays ahead of every id handed out. */
    ghost predicate Valid()
      reads this
    {
      && IdsIncreasing(rows)
      && (forall i :: 0 <= i < |rows| ==> rows[i].id < nextId)
      && nextId > 0
    }

    constructor ()
      ensures Valid() && rows == [] && nextId == 1
    {
      rows := [];
      nextId := 1;
    }

    /** `INSERT INTO transactions (...) VALUES (...)`: the eight given columns,
        the id assigned by the autoincrement key. */
    method Insert(userEmail: string, date: DateCell, transactionType: string, paymentGateway: string,
                  transactionState: string, merchantCategory: string, amount: real, isFraud: FraudCell)
      returns (id: nat)
      requires Valid()
      modifies this
      ensures Valid()
      ensures id == old(nextId) && nextId == id + 1
      ensures rows == old(rows) + [Transaction(id, userEmail, date, transactionType, paymentGateway,
                                               transactionState, merchantCategory, amount, isFraud)]
    {
      id := nextId;
      rows := rows + [Transaction(id, userEmail, date, transactionType, paymentGateway,
                                  transactionState, merchantCategory, amount, isFraud)];
      nextId := nextId + 1;
    }
  }
}
