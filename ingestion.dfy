/** The ingestion pipeline of app.py: a frame of transactions is scored by
    `predict_fraud` and each row is appended to the `transactions` table by
    `log_transaction_to_db`, either for an uploaded CSV batch or for the one
    transaction built from the sidebar form. */
module Ingestion {
  import opened Collections
  import opened TransactionStore
  import opened Features

  /** A pandas DataFrame passed by reference: its six input columns, row by
      row, and the `fraud` column once a caller assigns it. */
  class Frame {
    var rows: seq<InputRow>
    var fraud: Option<seq<Label>>

    constructor (rows: seq<InputRow>)
      ensures this.rows == rows && fraud == None
    {
      this.rows := rows;
      fraud := None;
    }
  }

  /** `predict_fraud(frame)`. Its first statement writes the converted Date
      column into the caller's frame; the next one rebinds a local name, so
      the encoding never reaches the caller. */
  method PredictFraud(frame: Frame, model: Model) returns (prediction: seq<Label>)
    modifies frame
    ensures frame.rows == ConvertDates(old(frame.rows))
    ensures frame.fraud == old(frame.fraud)
    ensures prediction == Labels(model, frame.rows)
  {
    frame.rows := ConvertDates(frame.rows);
    var encoded := frame.rows;
    prediction := Labels(model, encoded);
  }

  /** `log_transaction_to_db(user_email, row)`: one insert of the e-mail and
      the row's Date, type, gateway, state, category, amount and fraud. */
  method LogTransaction(store: TransactionTable, userEmail: string, row: InputRow, fraud: Label)
    requires store.Valid()
    modifies store
    ensures store.Valid()
    ensures store.rows == old(store.rows) + [LoggedRow(old(store.nextId), userEmail, row, fraud)]
    ensures store.nextId == old(store.nextId) + 1
  {
    var _ := store.Insert(userEmail, row.date, row.transactionType, row.paymentGateway,
                          row.transactionState, row.merchantCategory, row.amount, Int(fraud));
  }

  /** The record `log_transaction_to_db` stores for a row under a given id. */
  function LoggedRow(id: nat, userEmail: string, row: InputRow, fraud: Label): (t: Transaction)
    ensures t.id == id && t.userEmail == userEmail && t.isFraud == Int(fraud)
    ensures t.date == row.date && t.amount == row.amount
    ensures t.transactionType == row.transactionType && t.paymentGateway == row.paymentGateway
    ensures t.transactionState == row.transactionState && t.merchantCategory == row.merchantCategory
  {
    Transaction(id, userEmail, row.date, row.transactionType, row.paymentGateway,
                row.transactionState, row.merchantCategory, row.amount, Int(fraud))
  }

  /** The records a batch logs, ids counted up from `firstId`. */
  function LoggedRows(firstId: nat, userEmail: string, rows: seq<InputRow>, labels: seq<Label>): (ts: seq<Transaction>)
    requires |labels| == |rows|
    ensures |ts| == |rows|
    ensures forall i :: 0 <= i < |rows| ==> ts[i] == LoggedRow(firstId + i, userEmail, rows[i], labels[i])
  {
    seq(|rows|, i requires 0 <= i < |rows| => LoggedRow(firstId + i, userEmail, rows[i], labels[i]))
  }

  /** Logging one more row extends the logged records by that row. */
  lemma LoggedRowsSnoc(firstId: nat, userEmail: string, rows: seq<InputRow>, labels: seq<Label>, i: nat)
    requires |labels| == |rows| && i < |rows|
    ensures LoggedRows(firstId, userEmail, rows[..i + 1], labels[..i + 1])
         == LoggedRows(firstId, userEmail, rows[..i], labels[..i]) + [LoggedRow(firstId + i, userEmail, rows[i], labels[i])]
  {
    var longer := LoggedRows(firstId, userEmail, rows[..i + 1], labels[..i + 1]);
    var shorter := LoggedRows(firstId, userEmail, rows[..i], labels[..i]);
    assert forall k :: 0 <= k < i ==> longer[k] == shorter[k];
  }

  // ---------------------------------------------------------------- batch

  /** One row of an uploaded CSV: the six columns the pipeline reads (the
      others are ignored). `date` is `pd.to_datetime`'s reading of the Date
      cell, `None` when it cannot parse it. */
  datatype UploadRow = UploadRow(
    date: Option<int>,
    transactionType: string,
    paymentGateway: string,
    transactionState: string,
    merchantCategory: string,
    amount: real)

  /** A parsed CSV file: the names in its header and its rows. */
  datatype Upload = Upload(columns: set<string>, rows: seq<UploadRow>)

  datatype UploadError = MissingColumn(name: string) | UnparseableDate

  datatype BatchOutcome = Rejected(error: UploadError) | Logged(labels: seq<Label>)

  /** The columns `processed_data` reads from the upload, in the order the
      dictionary literal reads them. */
  const RequiredColumns: seq<string> :=
    ["Date", "Transaction_Type", "Payment_Gateway", "Transaction_State", "Merchant_Category", "amount"]

  /** The header has every one of `names` before position `k`. */
  predicate PresentBefore(names: seq<string>, k: int, columns: set<string>)
  {
    forall j :: 0 <= j < k && j < |names| ==> names[j] in columns
  }

  /** The first of `names` that the header lacks. */
  function FirstMissing(names: seq<string>, columns: set<string>): (r: Option<string>)
    ensures r.None? <==> forall i :: 0 <= i < |names| ==> names[i] in columns
    ensures r.Some? ==> r.value in names && r.value !in columns
    ensures r.Some? ==> exists k :: 0 <= k < |names| && names[k] == r.value && PresentBefore(names, k, columns)
  {
    if names == [] then None
    else if names[0] !in columns then Some(names[0])
    else
      var r := FirstMissing(names[1..], columns);
      assert forall i :: 1 <= i < |names| ==> names[i] == names[1..][i - 1];
      assert r.Some? ==> exists k :: 1 <= k < |names| && names[k] == r.value && PresentBefore(names, k, columns);
      r
  }

  /** How building `processed_data` fails, if it does: `df['Date']` is read
      and parsed first, then the other columns in order; a missing column is
      a `KeyError`, an unparseable date a parser error. */
  function CheckUpload(u: Upload): (e: Option<UploadError>)
    ensures e.None? <==>
      (forall i :: 0 <= i < |RequiredColumns| ==> RequiredColumns[i] in u.columns) &&
      (forall i :: 0 <= i < |u.rows| ==> u.rows[i].date.Some?)
    ensures e == Some(UnparseableDate) ==> "Date" in u.columns
    ensures e == Some(UnparseableDate) ==> exists i :: 0 <= i < |u.rows| && u.rows[i].date.None?
    ensures e.Some? && e.value.MissingColumn? ==> e.value.name in RequiredColumns && e.value.name !in u.columns
    ensures "Date" !in u.columns ==> e == Some(MissingColumn("Date"))
    ensures "Date" in u.columns && (exists i :: 0 <= i < |u.rows| && u.rows[i].date.None?) ==>
      e == Some(UnparseableDate)
    ensures e.Some? && e.value.MissingColumn? ==>
      exists k :: 0 <= k < |RequiredColumns| && RequiredColumns[k] == e.value.name && PresentBefore(RequiredColumns, k, u.columns)
  {
    if "Date" !in u.columns then
      assert RequiredColumns[0] == "Date";
      Some(MissingColumn("Date"))
    else if exists i :: 0 <= i < |u.rows| && u.rows[i].date.None? then Some(UnparseableDate)
    else
      var rest := RequiredColumns[1..];
      assert forall i :: 1 <= i < |RequiredColumns| ==> RequiredColumns[i] == rest[i - 1];
      match FirstMissing(rest, u.columns)
      case Some(name) =>
        var k :| 0 <= k < |rest| && rest[k] == name && PresentBefore(rest, k, u.columns);
        assert RequiredColumns[k + 1] == name;
        assert PresentBefore(RequiredColumns, k + 1, u.columns);
        Some(MissingColumn(name))
      case None => None
  }

  /** `processed_data` as built from a valid upload, before scoring. */
  function ProcessedRows(u: Upload): (rows: seq<InputRow>)
    requires CheckUpload(u).None?
    ensures |rows| == |u.rows|
    ensures forall i :: 0 <= i < |u.rows| ==>
      rows[i] == InputRow(Instant(u.rows[i].date.value), u.rows[i].transactionType, u.rows[i].paymentGateway,
                          u.rows[i].transactionState, u.rows[i].merchantCategory, u.rows[i].amount)
  {
    seq(|u.rows|, i requires 0 <= i < |u.rows| =>
      InputRow(Instant(u.rows[i].date.value), u.rows[i].transactionType, u.rows[i].paymentGateway,
               u.rows[i].transactionState, u.rows[i].merchantCategory, u.rows[i].amount))
  }

  /** The batch path: build `processed_data`, label it with one
      `predict_fraud` call, then log the rows one at a time in order. A
      rejected upload scores and logs nothing. */
  method ProcessUpload(store: TransactionTable, userEmail: string, upload: Upload, model: Model)
    returns (outcome: BatchOutcome)
    requires store.Valid()
    modifies store
    ensures store.Valid()
    ensures outcome.Rejected? <==> CheckUpload(upload).Some?
    ensures outcome.Rejected? ==> outcome.error == CheckUpload(upload).value && store.rows == old(store.rows)
    ensures outcome.Logged? ==>
      var scored := ConvertDates(ProcessedRows(upload));
      && outcome.labels == Labels(model, scored)
      && store.rows == old(store.rows) + LoggedRows(old(store.nextId), userEmail, scored, outcome.labels)
    ensures store.nextId == old(store.nextId) + (if outcome.Logged? then |upload.rows| else 0)
  {
    var error := CheckUpload(upload);
    if error.Some? {
      return Rejected(error.value);
    }
    var processed := new Frame(ProcessedRows(upload));
    var labels := PredictFraud(processed, model);
    processed.fraud := Some(labels);
    var rows := processed.rows;
    ghost var before := store.rows;
    ghost var firstId := store.nextId;
    var i := 0;
    while i < |rows|
      invariant 0 <= i <= |rows| == |labels|
      invariant store.Valid() && store.nextId == firstId + i
      invariant store.rows == before + LoggedRows(firstId, userEmail, rows[..i], labels[..i])
    {
      LogTransaction(store, userEmail, rows[i], labels[i]);
      LoggedRowsSnoc(firstId, userEmail, rows, labels, i);
      i := i + 1;
    }
    assert rows[..i] == rows && labels[..i] == labels;
    outcome := Logged(labels);
  }

  // ---------------------------------------------------------------- single

  /** The sidebar form: a calendar day, the four drop-down choices and the
      amount. */
  datatype FormInput = FormInput(
    day: int,
    transactionType: string,
    paymentGateway: string,
    transactionState: string,
    merchantCategory: string,
    amount: real)

  datatype Verdict = LikelyFraudulent | Legitimate

  /** The one-row frame the form builds, after `predict_fraud` converted its
      Date. */
  function FormRow(form: FormInput): (rows: seq<InputRow>)
    ensures Converted(rows)
    ensures rows == [InputRow(EpochSeconds((form.day * 86400) as real), form.transactionType, form.paymentGateway,
                              form.transactionState, form.merchantCategory, form.amount)]
  {
    ConvertDates([InputRow(Day(form.day), form.transactionType, form.paymentGateway,
                           form.transactionState, form.merchantCategory, form.amount)])
  }

  /** The label the classifier gives the form's transaction. */
  function FormLabel(model: Model, form: FormInput): Label
  {
    Labels(model, FormRow(form))[0]
  }

  /** "Check Individual Transaction": score the one-row frame, show the
      verdict for `prediction[0]`, write it into the frame's `fraud` column
      and log that row. */
  method CheckTransaction(store: TransactionTable, userEmail: string, form: FormInput, model: Model)
    returns (verdict: Verdict, fraud: Label)
    requires store.Valid()
    modifies store
    ensures store.Valid()
    ensures fraud == FormLabel(model, form)
    ensures verdict == LikelyFraudulent <==> fraud == 1
    ensures store.rows == old(store.rows) + [LoggedRow(old(store.nextId), userEmail, FormRow(form)[0], fraud)]
    ensures store.nextId == old(store.nextId) + 1
  {
    var frame := new Frame([InputRow(Day(form.day), form.transactionType, form.paymentGateway,
                                     form.transactionState, form.merchantCategory, form.amount)]);
    var prediction := PredictFraud(frame, model);
    if prediction[0] == 1 {
      verdict := LikelyFraudulent;
    } else {
      verdict := Legitimate;
    }
    frame.fraud := Some([prediction[0]]);
    fraud := prediction[0];
    LogTransaction(store, userEmail, frame.rows[0], frame.fraud.value[0]);
  }

  /** The verdict for the form ignores its four drop-down choices: two forms
      with the same day and amount always get the same label. */
  lemma FormLabelIgnoresCategories(model: Model, a: FormInput, b: FormInput)
    requires a.day == b.day && a.amount == b.amount
    ensures FormLabel(model, a) == FormLabel(model, b)
  {
    SingleRowLabelIgnoresCategories(model, FormRow(a), FormRow(b));
  }

  /** A batch logs exactly one record per row, in order, each tagged with the
      submitter's e-mail, stamped with its row's epoch seconds and holding its
      row's label. */
  lemma BatchRecordsMatchRows(firstId: nat, userEmail: string, upload: Upload, model: Model)
    requires CheckUpload(upload).None?
    ensures var scored := ConvertDates(ProcessedRows(upload));
      var logged := LoggedRows(firstId, userEmail, scored, Labels(model, scored));
      && |logged| == |upload.rows|
      && forall i :: 0 <= i < |logged| ==>
        && logged[i].id == firstId + i
        && logged[i].userEmail == userEmail
        && logged[i].date == EpochSeconds(upload.rows[i].date.value as real)
        && logged[i].amount == upload.rows[i].amount
        && logged[i].isFraud == Int(Labels(model, scored)[i])
  {
  }
}
