/** The numeric part of `predict_fraud` in app.py: the transaction frame is
    one-hot encoded with `pd.get_dummies(..., drop_first=True)`, reindexed to
    the classifier's frozen feature names with missing columns filled with 0,
    and scored row by row. */
module Features {
  import opened Collections
  import opened Text
  import opened TransactionStore

  /** A classifier output: 0 (legitimate) or 1 (fraudulent). */
  type Label = n: int | 0 <= n <= 1

  /** One row of the frame handed to `predict_fraud`: its six columns. */
  datatype InputRow = InputRow(
    date: DateCell,
    transactionType: string,
    paymentGateway: string,
    transactionState: string,
    merchantCategory: string,
    amount: real)

  /** The trained classifier: the ordered feature names recorded in it
      (`model.get_booster().feature_names`) and its prediction for one
      feature vector. The trees score every row on its own. */
  datatype Model = Model(featureNames: seq<string>, classify: seq<real> -> Label)

  const DateColumn: string := "Date"
  const AmountColumn: string := "amount"

  /** The columns `get_dummies` encodes, in the order it is given them. */
  const CategoricalColumns: seq<string> :=
    ["Transaction_Type", "Payment_Gateway", "Transaction_State", "Merchant_Category"]

  /** The value of categorical column `c` in a row. */
  function Category(row: InputRow, c: nat): string
    requires c < |CategoricalColumns|
  {
    if c == 0 then row.transactionType
    else if c == 1 then row.paymentGateway
    else if c == 2 then row.transactionState
    else row.merchantCategory
  }

  /** The float-to-integer cast pandas applies when `pd.to_datetime` turns a
      number into whole nanoseconds: truncation toward zero. */
  function Truncate(v: real): (n: int)
    ensures 0.0 <= v ==> n as real <= v < (n + 1) as real
    ensures v < 0.0 ==> (n - 1) as real < v <= n as real
  {
    if v >= 0.0 then v.Floor else -((-v).Floor)
  }

  /** `pd.to_datetime(d).view("int64") / 10**9`: the date as seconds since
      1970-01-01. A day is read as its midnight; a plain number is read as
      nanoseconds, which is pandas' default unit. */
  function ToEpoch(d: DateCell): (e: DateCell)
    ensures e.EpochSeconds?
    ensures d.Day? ==> e.value == (d.days * 86400) as real
    ensures d.Instant? ==> e.value == d.seconds as real
  {
    match d
    case Day(n) => EpochSeconds((n * 86400) as real)
    case Instant(s) => EpochSeconds(s as real)
    case EpochSeconds(v) => EpochSeconds((Truncate(v) as real) / 1000000000.0)
  }

  /** Every date of the frame is already a number of seconds. */
  ghost predicate Converted(rows: seq<InputRow>)
  {
    forall i :: 0 <= i < |rows| ==> rows[i].date.EpochSeconds?
  }

  /** The frame after `transaction_data['Date'] = ...`: the Date column is
      replaced and no other column changes. */
  function ConvertDates(rows: seq<InputRow>): (r: seq<InputRow>)
    ensures |r| == |rows| && Converted(r)
    ensures forall i :: 0 <= i < |rows| ==> r[i].date == ToEpoch(rows[i].date)
    ensures forall i :: 0 <= i < |rows| ==> r[i].(date := rows[i].date) == rows[i]
  {
    seq(|rows|, i requires 0 <= i < |rows| => rows[i].(date := ToEpoch(rows[i].date)))
  }

  /** The values of categorical column `c`, one per row. */
  function Levels(rows: seq<InputRow>, c: nat): (vs: seq<string>)
    requires c < |CategoricalColumns|
    ensures |vs| == |rows| && forall i :: 0 <= i < |rows| ==> vs[i] == Category(rows[i], c)
  {
    seq(|rows|, i requires 0 <= i < |rows| => Category(rows[i], c))
  }

  /** The level `drop_first` drops: the first of the sorted levels present. */
  function DroppedLevel(rows: seq<InputRow>, c: nat): (level: string)
    requires c < |CategoricalColumns| && |rows| > 0
    ensures exists i :: 0 <= i < |rows| && Category(rows[i], c) == level
    ensures forall i :: 0 <= i < |rows| ==> LexLe(level, Category(rows[i], c))
  {
    LexMin(Levels(rows, c))
  }

  /** `get_dummies`' indicator name: `<column>_<level>`. */
  function DummyName(c: nat, level: string): string
    requires c < |CategoricalColumns|
  {
    CategoricalColumns[c] + "_" + level
  }

  /** Which categorical column's prefix `name` carries, from column `c` on,
      and the level after the prefix. */
  function SplitFrom(name: string, c: nat): (r: Option<(nat, string)>)
    requires c <= |CategoricalColumns|
    ensures r.Some? ==> c <= r.value.0 < |CategoricalColumns| && name == DummyName(r.value.0, r.value.1)
    decreases |CategoricalColumns| - c
  {
    if c == |CategoricalColumns| then None
    else
      var prefix := CategoricalColumns[c] + "_";
      if |prefix| <= |name| && name[..|prefix|] == prefix then
        assert name == prefix + name[|prefix|..];
        Some((c, name[|prefix|..]))
      else SplitFrom(name, c + 1)
  }

  /** The indicator a name stands for, if it has the form `<column>_<level>`. */
  function SplitDummyName(name: string): (r: Option<(nat, string)>)
    ensures r.Some? ==> r.value.0 < |CategoricalColumns| && name == DummyName(r.value.0, r.value.1)
  {
    SplitFrom(name, 0)
  }

  /** No column's `<column>_` prefix starts another's, so an indicator name
      splits back into the column and level it was made from. */
  lemma SplitDummyNameOf(c: nat, level: string)
    requires c < |CategoricalColumns|
    ensures SplitDummyName(DummyName(c, level)) == Some((c, level))
  {
    var name := DummyName(c, level);
    var p0, p1, p2 := "Transaction_Type_", "Payment_Gateway_", "Transaction_State_";
    assert name[0] == (CategoricalColumns[c] + "_")[0];
    if c == 1 || c == 3 {
      assert !(|p0| <= |name| && name[..|p0|] == p0) by { assert name[0] != p0[0]; }
    }
    if c == 2 {
      assert !(|p0| <= |name| && name[..|p0|] == p0) by { assert name[12] == 'S' && p0[12] == 'T'; }
      assert !(|p1| <= |name| && name[..|p1|] == p1) by { assert name[0] != p1[0]; }
    }
    if c == 3 {
      assert !(|p1| <= |name| && name[..|p1|] == p1) by { assert name[0] != p1[0]; }
      assert !(|p2| <= |name| && name[..|p2|] == p2) by { assert name[0] != p2[0]; }
    }
    assert name == (CategoricalColumns[c] + "_") + level;
    assert name[|CategoricalColumns[c] + "_"|..] == level;
  }

  /** The value of encoded column `name` in row `i`, or `None` when the
      encoded frame has no such column. The encoded frame keeps Date and
      amount and has one indicator per level present in a categorical
      column, except that column's dropped level. */
  function EncodedCell(rows: seq<InputRow>, i: nat, name: string): (v: Option<real>)
    requires i < |rows| && Converted(rows)
    ensures name == DateColumn ==> v == Some(rows[i].date.value)
    ensures name == AmountColumn ==> v == Some(rows[i].amount)
    ensures name != DateColumn && name != AmountColumn && v.Some? ==>
      && SplitDummyName(name).Some?
      && var (c, level) := SplitDummyName(name).value;
      && level in Levels(rows, c) && level != DroppedLevel(rows, c)
      && (v.value == 1.0 <==> Category(rows[i], c) == level)
      && (v.value == 0.0 <==> Category(rows[i], c) != level)
  {
    if name == DateColumn then Some(rows[i].date.value)
    else if name == AmountColumn then Some(rows[i].amount)
    else match SplitDummyName(name)
      case None => None
      case Some((c, level)) =>
        if level in Levels(rows, c) && level != DroppedLevel(rows, c)
        then Some(if Category(rows[i], c) == level then 1.0 else 0.0)
        else None
  }

  /** The classifier's input: columns named and ordered as the frozen schema,
      one row of values per transaction. */
  datatype FeatureTable = FeatureTable(columns: seq<string>, values: seq<seq<real>>)

  /** `reindex(columns=schema, fill_value=0)` of the encoded frame: a schema
      column the encoding lacks holds 0, an encoded column outside the
      schema is dropped. */
  function Align(schema: seq<string>, rows: seq<InputRow>): (t: FeatureTable)
    requires Converted(rows)
    ensures t.columns == schema && |t.values| == |rows|
    ensures forall i :: 0 <= i < |rows| ==> |t.values[i]| == |schema|
  {
    FeatureTable(schema,
      seq(|rows|, i requires 0 <= i < |rows| =>
        seq(|schema|, j requires 0 <= j < |schema| =>
          match EncodedCell(rows, i, schema[j]) case Some(x) => x case None => 0.0)))
  }

  /** `model.predict` on the aligned table: one label per row. */
  function Labels(model: Model, rows: seq<InputRow>): (labels: seq<Label>)
    requires Converted(rows)
    ensures |labels| == |rows|
  {
    var t := Align(model.featureNames, rows);
    seq(|rows|, i requires 0 <= i < |rows| => model.classify(t.values[i]))
  }

  /** A schema column the encoding does not produce is filled with 0. */
  lemma MissingColumnIsZero(schema: seq<string>, rows: seq<InputRow>, i: nat, j: nat)
    requires Converted(rows) && i < |rows| && j < |schema|
    ensures EncodedCell(rows, i, schema[j]).None? ==> Align(schema, rows).values[i][j] == 0.0
    ensures EncodedCell(rows, i, schema[j]).Some? ==> Align(schema, rows).values[i][j] == EncodedCell(rows, i, schema[j]).value
  {
  }

  /** The Date and amount features carry the row's own values. */
  lemma DateAndAmountFeatures(schema: seq<string>, rows: seq<InputRow>, i: nat, j: nat)
    requires Converted(rows) && i < |rows| && j < |schema|
    ensures schema[j] == DateColumn ==> Align(schema, rows).values[i][j] == rows[i].date.value
    ensures schema[j] == AmountColumn ==> Align(schema, rows).values[i][j] == rows[i].amount
  {
  }

  /** An indicator for a level the batch does not contain is 0 in every row,
      not an error. */
  lemma UnseenLevelIsZero(schema: seq<string>, rows: seq<InputRow>, i: nat, j: nat, c: nat, level: string)
    requires Converted(rows) && i < |rows| && j < |schema| && c < |CategoricalColumns|
    requires schema[j] == DummyName(c, level) && level !in Levels(rows, c)
    ensures Align(schema, rows).values[i][j] == 0.0
  {
    SplitDummyNameOf(c, level);
  }

  /** The indicator of the dropped (least) level is 0 in every row. */
  lemma DroppedLevelIsZero(schema: seq<string>, rows: seq<InputRow>, i: nat, j: nat, c: nat)
    requires Converted(rows) && i < |rows| && j < |schema| && c < |CategoricalColumns|
    requires schema[j] == DummyName(c, DroppedLevel(rows, c))
    ensures Align(schema, rows).values[i][j] == 0.0
  {
    SplitDummyNameOf(c, DroppedLevel(rows, c));
  }

  /** An indicator for a kept level is 1 exactly in the rows holding it. */
  lemma IndicatorMarksLevel(schema: seq<string>, rows: seq<InputRow>, i: nat, j: nat, c: nat, level: string)
    requires Converted(rows) && i < |rows| && j < |schema| && c < |CategoricalColumns|
    requires schema[j] == DummyName(c, level)
    requires level in Levels(rows, c) && level != DroppedLevel(rows, c)
    ensures Align(schema, rows).values[i][j] == if Category(rows[i], c) == level then 1.0 else 0.0
  {
    SplitDummyNameOf(c, level);
  }

  /** With a single row every category holds one level, which `drop_first`
      drops: only Date and amount can be non-zero. */
  lemma SingleRowHasNoIndicators(schema: seq<string>, rows: seq<InputRow>)
    requires Converted(rows) && |rows| == 1
    ensures forall j :: 0 <= j < |schema| && schema[j] != DateColumn && schema[j] != AmountColumn ==>
      Align(schema, rows).values[0][j] == 0.0
  {
    forall j | 0 <= j < |schema| && schema[j] != DateColumn && schema[j] != AmountColumn
      ensures Align(schema, rows).values[0][j] == 0.0
    {
      match SplitDummyName(schema[j])
      case None =>
      case Some((c, level)) =>
        assert Levels(rows, c) == [Category(rows[0], c)];
    }
  }

  /** Two single rows with the same Date and amount get the same label,
      whatever their categories. */
  lemma SingleRowLabelIgnoresCategories(model: Model, a: seq<InputRow>, b: seq<InputRow>)
    requires Converted(a) && Converted(b) && |a| == 1 && |b| == 1
    requires a[0].date == b[0].date && a[0].amount == b[0].amount
    ensures Labels(model, a) == Labels(model, b)
  {
    var schema := model.featureNames;
    SingleRowHasNoIndicators(schema, a);
    SingleRowHasNoIndicators(schema, b);
    var va, vb := Align(schema, a).values[0], Align(schema, b).values[0];
    forall j | 0 <= j < |schema| ensures va[j] == vb[j] {
      DateAndAmountFeatures(schema, a, 0, j);
      DateAndAmountFeatures(schema, b, 0, j);
    }
    assert va == vb;
  }
}
