# PayGuardAI core, modelled in Dafny

PayGuardAI is a Streamlit app that scores UPI transactions with a trained
fraud classifier, keeps every scored transaction in an SQLite `transactions`
table, and lets users rate or flag UPI IDs on a shared reputation board. This
project models the logic behind four parts of it and proves what that logic
promises:

- **Ingestion** (`app.py`), in `features.dfy` and `ingestion.dfy`.
  - `predict_fraud` overwrites the caller's Date column with epoch seconds, in place.
  - It then one-hot encodes the four categorical columns, dropping the first sorted level.
  - It reindexes the result to the classifier's frozen feature list, filling missing columns with 0.
  - It labels every row with an uninterpreted classifier.
  - The batch upload path and the single-form path both log their rows through `log_transaction_to_db`.
- **The transactions table** (`store.dfy`): an appended sequence of records whose autoincrement ids strictly increase.
- **History search** (`pages/3_Transaction_history.py`), in `history.dfy`.
  - An optional id filter, parsed by Python's `int()` (`text.dfy`).
  - Four drop-down filters, each with an "All" wildcard.
  - The filters apply only when "Search" is pressed.
  - An empty result shows the "No transactions found" error.
- **Dashboard** (`pages/1_dashboard.py`), in `dashboard.dfy`.
  - The user's rows of the table.
  - The in-place decoding of byte-string `is_fraud` cells, and `value_counts` of that column.
  - The in-place relabelling of unknown states to "Other", then a regroup of the state counts.
- **Reputation board** (`pages/2_Upi_Reputation_Tracker.py`), in `reputation.dfy`.
  - The guarded insert of a rating, at most one per (UPI ID, user) pair.
  - The lookup: mean rating, number flagged, number of ratings, and a trust level with its colour.

Shared pieces:

- `collections.dfy`: `KeepIf`, the boolean mask or SQL `WHERE` selection, and the order-preserving `Subsequence` relation.
- `tally.dfy`: `GroupSum`, a `groupby(key).sum()`, and `ValueCounts`.

Inputs the app takes from its surroundings become parameters:

- the logged-in user's e-mail;
- the classifier, as its feature-name list plus a function from a feature row to 0 or 1;
- the clock (`now`);
- whether a button was pressed;
- the parsed CSV (header names plus typed rows).

## Model

| member | source | states |
|---|---|---|
| TransactionStore.TransactionTable.Insert | app.py:15-29 | appends exactly one record holding the eight given columns under the next autoincrement id; the id counter advances by one and ids stay strictly increasing |
| Ingestion.LogTransaction | app.py:12-31 | the table grows by exactly one record: the e-mail, then the row's Date, type, gateway, state, category, amount and fraud label; nothing else changes |
| Ingestion.LoggedRow | app.py:20-29 | the logged record's fields are the e-mail and the row's own fields, one to one, with the label stored as an integer |
| Features.ToEpoch | app.py:124 | every date becomes a number of seconds; a calendar day becomes its midnight (days times 86400), a date-time its own seconds |
| Features.Truncate | app.py:124 | the integer cast truncates toward zero: for a non-negative number it is the largest integer at or below it, for a negative one the smallest integer at or above it |
| Features.ConvertDates | app.py:124 | the Date column is replaced by epoch seconds in every row, and no other column of any row changes |
| Ingestion.PredictFraud | app.py:123-128 | the caller's frame comes back with its Date column converted and its other columns intact, and the labels are the classifier's labels of the converted frame, one per row |
| Features.DroppedLevel | app.py:125 | the level `drop_first` drops occurs in some row and is at or below every row's level in Python's string order |
| Text.LexMin | app.py:125 | the level `drop_first` drops is one of the levels present and is at or below every one of them in Python's string order |
| Features.SplitDummyNameOf | app.py:125 | an indicator name `<column>_<level>` splits back into exactly its column and level, so indicators of different columns never collide |
| Features.EncodedCell | app.py:124-126 | the Date and amount features carry the row's epoch seconds and amount; any other feature that `get_dummies` produces is the indicator of a level present in the batch and not dropped, 1.0 exactly when the row holds that level and 0.0 otherwise |
| Features.Align | app.py:126 | the feature table's columns are exactly the model's feature names in their order, with one row of that width per transaction |
| Features.MissingColumnIsZero | app.py:126 | a schema column the encoding does not produce holds 0, and one it produces holds the encoded value |
| Features.DateAndAmountFeatures | app.py:124-126 | the Date and amount features carry the row's epoch seconds and amount |
| Features.UnseenLevelIsZero | app.py:125-126 | an indicator for a level absent from the batch is 0 in every row |
| Features.DroppedLevelIsZero | app.py:125-126 | the indicator of the dropped (least) level is 0 in every row |
| Features.IndicatorMarksLevel | app.py:125-126 | an indicator for a kept level is 1 exactly in the rows holding that level and 0 elsewhere |
| Features.SingleRowHasNoIndicators | app.py:125-126 | with a one-row input every categorical indicator is 0, so only Date and amount can be non-zero |
| Features.SingleRowLabelIgnoresCategories | app.py:125-127 | two one-row inputs with the same Date and amount get the same label, whatever their categories |
| Features.Labels | app.py:127 | the classifier gives exactly one label per row |
| Ingestion.FirstMissing | app.py:165-169 | no column is reported exactly when the header has them all; a reported column is required and absent, and every column listed before it is present |
| Ingestion.CheckUpload | app.py:163-170 | the upload is accepted exactly when all six columns are present and every date parses; a missing Date is always the error reported; with Date present, an unparseable date is always the error reported, and it is reported only when some date failed to parse; any other missing column reported is required, absent, and the first of the six columns the header lacks |
| Ingestion.ProcessedRows | app.py:163-170 | an accepted upload yields one row per CSV row, holding its parsed date-time and its other five cells |
| Ingestion.ProcessUpload | app.py:156-180 | a rejected upload scores and logs nothing; an accepted one is labelled by one scoring of its date-converted rows, and exactly those rows are appended in order with their labels under consecutive ids; the id counter advances by the number of rows logged |
| Ingestion.LoggedRows | app.py:179-180 | the batch's records are one per row, in row order, with consecutive ids from the first free one |
| Ingestion.LoggedRowsSnoc | app.py:179-180 | logging the next row extends the batch's logged records by that row's record |
| Ingestion.BatchRecordsMatchRows | app.py:172-180 | every logged record of a batch carries the user's e-mail, its row's date as epoch seconds, its row's amount and its row's label |
| Ingestion.FormRow | app.py:183-190 | the form becomes a one-row frame whose date, once scored, is the chosen day's midnight in epoch seconds, and whose type, gateway, state, category and amount are the form's own |
| Ingestion.CheckTransaction | app.py:182-199 | the label is the classifier's label of the one-row frame; the fraud verdict is shown exactly when that label is 1; exactly one record, holding the converted date and the label, is appended under the next id, and the id counter advances by one |
| Ingestion.FormLabelIgnoresCategories | app.py:183-192 | two form submissions with the same day and amount get the same verdict, whatever their four drop-down choices |
| Collections.KeepIf | pages/3_Transaction_history.py:63 | a boolean mask keeps exactly the rows that pass it, in their original order |
| Text.Strip | pages/3_Transaction_history.py:59 | `int()` reads the slice of its text left after removing only whitespace at both ends (the `str.isspace` characters other than U+001C–U+001F); what is left is empty or starts and ends with a non-space character |
| Text.ParseInt | pages/3_Transaction_history.py:59 | `int()` succeeds exactly when the stripped text is an optional sign followed by one to 4300 (`sys.get_int_max_str_digits()`'s default) decimal digits |
| Text.ParseNeedsDigit | pages/3_Transaction_history.py:59 | text with no ASCII decimal digit is rejected |
| Text.ParseDigits | pages/3_Transaction_history.py:59 | a string of one to 4300 decimal digits reads as its value |
| Text.ParseNegated | pages/3_Transaction_history.py:59 | a minus sign before one to 4300 decimal digits reads as the negated value |
| Text.ParsePlus | pages/3_Transaction_history.py:59 | a plus sign before one to 4300 decimal digits reads as their value |
| Text.ParseShow | pages/3_Transaction_history.py:59 | the decimal text of any integer of at most 4300 digits parses back to that integer |
| Text.StripPadded | pages/3_Transaction_history.py:59 | whitespace around text that starts and ends with a non-space character is exactly what is stripped |
| Text.ParsePadded | pages/3_Transaction_history.py:59 | the decimal text of any integer of at most 4300 digits, with any whitespace around it, parses back to that integer |
| Text.ParseRejectsLong | pages/3_Transaction_history.py:59 | more than 4300 digits, with or without a sign and with any whitespace around them, make `int()` fail |
| Text.ParseRejectsOnePastLimit | pages/3_Transaction_history.py:59 | a run of 4301 ones, one digit past the limit, is rejected |
| Text.ParseRejectsJunk | pages/3_Transaction_history.py:59 | a character that is neither an ASCII digit nor whitespace, and not a leading sign, makes the text rejected |
| Text.ParseKeepsSeparators | pages/3_Transaction_history.py:59 | a leading separator U+001C–U+001F, though `str.isspace` holds for it, is not stripped by `int()`, so the text is rejected |
| History.Filtered | pages/3_Transaction_history.py:53-75 | without a press of "Search" the whole table comes back; with one, non-numeric id text is an error, never an empty result |
| History.ById | pages/3_Transaction_history.py:58-59 | an empty id box keeps the whole table; otherwise exactly the rows whose id is the parsed number are kept, in table order |
| History.ByChoice | pages/3_Transaction_history.py:62-75 | "All" keeps the whole table; any other choice keeps exactly the rows whose column equals it, in table order |
| History.ByChoiceIsKeepIf | pages/3_Transaction_history.py:62-75 | each drop-down step keeps the rows whose column equals the choice, and "All" keeps every row |
| History.FilteredSelectsMatches | pages/3_Transaction_history.py:56-75 | the chain of masks equals one selection by the conjunction of all active filters |
| History.FilteredIsExact | pages/3_Transaction_history.py:53-75 | the result is an order-preserving subsequence of the table; after a search a row is in it exactly when it is in the table and matches every active filter |
| History.AtMostOneWithId | create_db.py:8 | since ids strictly increase along the table, a selection that forces one id keeps at most one row |
| History.IdSearchAtMostOne | pages/3_Transaction_history.py:58-59 | searching by id yields at most one row |
| History.HistoryPage | pages/3_Transaction_history.py:78-103 | the page shows the `int()` error exactly when the id text is rejected, and "No transactions found" exactly when the result is empty; cards are shown only for a non-empty result, one per row |
| Dashboard.FetchUserTransactions | pages/1_dashboard.py:9-19 | exactly the rows with the user's e-mail, in table order, as a subsequence of the table |
| Dashboard.DecodeBytes | pages/1_dashboard.py:84 | a byte string decodes to text of the same length whose characters have the bytes' values |
| Dashboard.Decoded | pages/1_dashboard.py:84 | a byte-string cell becomes text and every other cell is left unchanged; no cell stays a byte string |
| Dashboard.DecodeFraudColumn | pages/1_dashboard.py:82-84 | the warning is raised exactly when some cell is a byte string; afterwards every cell is its decoded self, in place |
| Dashboard.DecodedFraud | pages/1_dashboard.py:84 | the decoded column has one cell per row, each the decoding of that row's `is_fraud` |
| Dashboard.FraudOverview | pages/1_dashboard.py:73-87 | with no rows only the warning is produced; otherwise the chart gets the number of rows, the `value_counts` of the decoded column, and whether some cell was a byte string |
| Dashboard.FraudCountsSpec | pages/1_dashboard.py:86-87 | the fraud counts have one entry per distinct decoded value, none of them a byte string, each counting its rows, and they sum to the number of rows |
| Tally.ValueCounts | pages/1_dashboard.py:86 | `value_counts` has no more entries than the column has cells, no repeated key, and a key exactly for each value present |
| Tally.ValueCountsSpec | pages/1_dashboard.py:86 | `value_counts` has unique keys, one per value present, each counting that value's occurrences, with the counts summing to the column's length |
| Dashboard.Bucket | pages/1_dashboard.py:146-148 | a listed state keeps its own name and any other state becomes "Other" |
| Dashboard.BucketListed | pages/1_dashboard.py:134-148 | every bucket is one of the listed states |
| Dashboard.RelabelStates | pages/1_dashboard.py:146-148 | every label is replaced, in place, by its bucket |
| Dashboard.StateDistribution | pages/1_dashboard.py:142-151 | the chart's counts are the user's state counts after relabelling and regrouping |
| Dashboard.StateCountsSpec | pages/1_dashboard.py:142-151 | after regrouping, labels are unique and all listed; a listed state other than "Other" keeps its own count; "Other" collects every unlisted state; the total equals the number of rows |
| Tally.GroupSum | pages/1_dashboard.py:151 | grouping leaves one entry per key present, with no key repeated |
| Tally.GroupSumKeepsCounts | pages/1_dashboard.py:151 | grouping keeps each key's summed count and the total |
| Tally.RelabelSumWhere | pages/1_dashboard.py:146-151 | a sum filtered on the new labels equals the sum filtered on the old keys whose labels pass |
| Reputation.StoredReason | pages/2_Upi_Reputation_Tracker.py:41 | an empty flag reason is stored as NULL and any other reason as given |
| Reputation.ReputationTable.Submit | pages/2_Upi_Reputation_Tracker.py:24-47 | an empty ID is an error and a pair already rated is a warning, both leaving the table unchanged; otherwise exactly one record (ID, user, rating, stored reason, time) is appended under the next id; at most one record per (UPI ID, user) pair remains |
| Reputation.HasRated | pages/2_Upi_Reputation_Tracker.py:31-33 | the duplicate check finds a record exactly when one of the UPI ID's records comes from this user |
| Reputation.RecordsFor | pages/2_Upi_Reputation_Tracker.py:56 | the lookup reads exactly the records with that UPI ID |
| Reputation.SumRatings | pages/2_Upi_Reputation_Tracker.py:62 | the ratings sum to between one and five times the number of records |
| Reputation.Average | pages/2_Upi_Reputation_Tracker.py:62 | the mean rating times the count is the sum of the ratings, and the mean lies between 1 and 5 |
| Reputation.FlagCount | pages/2_Upi_Reputation_Tracker.py:63 | the number flagged never exceeds the number of records |
| Reputation.TrustTier | pages/2_Upi_Reputation_Tracker.py:69-77 | the level is Unknown for at most 2 ratings, Low Trust for 3 to 5, Medium Trust for 6 to 10 and High Trust for 11 or more |
| Reputation.TierMonotone | pages/2_Upi_Reputation_Tracker.py:70-77 | more ratings never give a lower trust level |
| Reputation.EveryTierHasColour | pages/2_Upi_Reputation_Tracker.py:79-84 | every trust level's text has an entry in `color_map`, and distinct levels have distinct texts |
| Reputation.Colour | pages/2_Upi_Reputation_Tracker.py:79-87 | the colour shown is the `color_map` entry of the level's text |
| Reputation.Lookup | pages/2_Upi_Reputation_Tracker.py:54-77 | nothing is shown unless the button is pressed with an ID; "no data" is shown exactly when the ID has no records; otherwise the count is the number of its records, the flags are at most that count, the mean is in [1, 5], and the level is graded from the count |
| Reputation.RecordedRaisesCount | pages/2_Upi_Reputation_Tracker.py:37-42 | a recorded submission raises its UPI ID's count by one and leaves every other ID's records unchanged |
| Reputation.RatersDistinct | pages/2_Upi_Reputation_Tracker.py:31-41 | on a board with one record per rater, the records of one ID come from distinct users |

## Left out

- Authentication: the Auth0 login and the session checks of every page are left out. The logged-in e-mail is a parameter.
- Presentation: the Streamlit layout, the HTML blocks, `visualize_results` and all charts are left out.
  - This includes the random colours of the state chart and the fraud chart's colour scale.
  - The models stop at the data each chart is given.
- Classifier internals: unpickling and XGBoost's `predict` are not modelled. The classifier is an uninterpreted function from one row of features to 0 or 1. This assumes that a row's label does not depend on the other rows.
- CSV reading: `pd.read_csv` and the type inference pandas applies are not modelled.
  - The upload is its header names plus rows whose date cell either parsed to a date-time or did not.
  - Cells that pandas would read as NaN, or as another type, are not modelled.
- SQLite plumbing: connect, commit and close are not modelled, and each table is a sequence of records.
  - The `date` column is declared TEXT, so SQLite stores the epoch seconds as text; the model keeps the number.
  - `get_all_transactions` is the table's own sequence.
  - `SELECT` without `ORDER BY` is taken to return rows in insertion order.
  - The driver's conversion of NumPy values into SQLite cells is not modelled. The byte strings the dashboard decodes are an input case, not derived from the insert.
  - Ingestion.CheckTransaction: the single path logs `iloc[0]` of the frame, whose `fraud` cell is a NumPy int64, which sqlite3 binds as an 8-byte BLOB. The model stores `Int(label)`. This insert is where the `Raw` byte cells that Dashboard.DecodeBytes decodes come from. The batch path's `iterrows()` gives Python ints, stored as INTEGER.
- Schema scripts: create_db.py and update_db.py are folded into the record types.
  - Ratings are a 1..5 subtype.
  - Transaction ids come from an autoincrement counter.
- Random data: `generate_random_transactions` and the monthly and merchant-category charts built from it are left out.
- Concurrency: the check-then-insert race between two simultaneous raters is out of scope.
- Streamlit reruns: while a file stays uploaded, every rerun of the script (for example pressing "Check Individual Transaction") scores and logs the batch again. Ingestion.ProcessUpload models one run of the upload branch.
- A batch that fails part-way: each insert commits on its own, so an exception midway keeps the rows already logged. The model's inserts cannot fail.
- Features.ToEpoch: dates carry whole seconds, so sub-second parts are not modelled.
  - A plain number in the Date column is read as nanoseconds.
  - Float rounding of the division by 10**9 is not modelled: the arithmetic is exact.
- Reputation.Average: the mean is exact; the `round(mean, 2)` applied for display is not modelled.
- Dashboard.DecodeBytes: decoding maps each byte to the character with that code. This equals UTF-8 decoding for ASCII bytes only. Multi-byte sequences, and the error on invalid UTF-8, are not modelled.
- Dashboard.DecodeFraudColumn: the `dtype == 'object'` test is folded into "some cell is a byte string", because a column holding a byte string always has dtype object.
- Tally.ValueCounts: entries come in first-appearance order, not pandas' order (descending count for `value_counts`, sorted key for `groupby`). Only which entries exist and their counts are modelled.
- Text.ParseInt: underscores between digits and non-ASCII digits, both of which Python's `int()` accepts, are not modelled; only ASCII digits count.
  - The digit limit is the default 4300 of `sys.get_int_max_str_digits()`, which the application never changes; leading zeros count towards it, as in CPython.
  - Whitespace is Python's `str.isspace` set minus U+001C–U+001F, which `int()` does not strip.
- Text.ParseNeedsDigit: "digit" means an ASCII digit, so text such as "٣", which `int()` reads as 3, is rejected here.
- Text.ParseRejectsJunk: an underscore between digits counts as junk here, though `int()` accepts "1_0".
- Reputation.Lookup: the table of submissions shown in the expander is not modelled.
