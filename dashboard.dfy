/** The per-user aggregates of pages/1_dashboard.py: the user's rows of
    `transactions`, the count of each `is_fraud` value after byte strings are
    decoded, and the count of each state after unknown states are merged into
    "Other". */
module Dashboard {
  import opened Collections
  import opened Tally
  import opened TransactionStore

  /** `SELECT * FROM transactions WHERE user_email = ?`: the user's rows, in
      table order. */
  function FetchUserTransactions(table: seq<Transaction>, email: string): (r: seq<Transaction>)
    ensures forall i :: 0 <= i < |r| ==> r[i].userEmail == email && r[i] in table
    ensures forall i :: 0 <= i < |table| && table[i].userEmail == email ==> table[i] in r
    ensures Subsequence(r, table)
  {
    KeepIf(table, (t: Transaction) => t.userEmail == email)
  }

  /** `bytes.decode()` byte by byte: each byte is the code point of its
      character. */
  function DecodeBytes(bytes: seq<bv8>): (s: string)
    ensures |s| == |bytes|
    ensures forall i :: 0 <= i < |bytes| ==> s[i] as int == bytes[i] as int
  {
    seq(|bytes|, i requires 0 <= i < |bytes| => (bytes[i] as int) as char)
  }

  /** The per-cell conversion: a byte string becomes text, anything else is
      kept. */
  function Decoded(cell: FraudCell): (r: FraudCell)
    ensures !r.Raw?
    ensures cell.Raw? ==> r.Str? && |r.text| == |cell.bytes|
    ensures !cell.Raw? ==> r == cell
  {
    match cell
    case Raw(bytes) => Str(DecodeBytes(bytes))
    case _ => cell
  }

  /** The `is_fraud` column overwritten in place: when any cell is a byte
      string (the warning is shown), every byte string is decoded and every
      other cell is left as it was. */
  method DecodeFraudColumn(column: array<FraudCell>) returns (converted: bool)
    modifies column
    ensures converted <==> exists i :: 0 <= i < column.Length && old(column[i]).Raw?
    ensures forall i :: 0 <= i < column.Length ==> column[i] == Decoded(old(column[i]))
  {
    converted := false;
    var i := 0;
    while i < column.Length
      invariant 0 <= i <= column.Length
      invariant converted <==> exists j :: 0 <= j < i && column[j].Raw?
    {
      if column[i].Raw? {
        converted := true;
      }
      i := i + 1;
    }
    if converted {
      var k := 0;
      while k < column.Length
        invariant 0 <= k <= column.Length
        invariant forall j :: 0 <= j < k ==> column[j] == Decoded(old(column[j]))
        invariant forall j :: k <= j < column.Length ==> column[j] == old(column[j])
      {
        column[k] := Decoded(column[k]);
        k := k + 1;
      }
    }
  }

  /** The fraud section: a warning when the user has no rows, otherwise the
      row count, the counts of each decoded `is_fraud` value and whether any
      byte string was converted. */
  datatype Overview =
    | NoTransactions
    | FraudChart(total: nat, counts: seq<(FraudCell, nat)>, converted: bool)

  /** The decoded `is_fraud` column of the user's rows. */
  function DecodedFraud(rows: seq<Transaction>): (cells: seq<FraudCell>)
    ensures |cells| == |rows|
    ensures forall i :: 0 <= i < |rows| ==> cells[i] == Decoded(rows[i].isFraud)
  {
    seq(|rows|, i requires 0 <= i < |rows| => Decoded(rows[i].isFraud))
  }

  /** The user's rows, the bytes check and decode, and `value_counts()` of
      the decoded column. */
  method FraudOverview(table: seq<Transaction>, email: string) returns (o: Overview)
    ensures var rows := FetchUserTransactions(table, email);
      && (o.NoTransactions? <==> rows == [])
      && (o.FraudChart? ==>
            && o.total == |rows|
            && o.counts == ValueCounts(DecodedFraud(rows))
            && (o.converted <==> exists i :: 0 <= i < |rows| && rows[i].isFraud.Raw?))
  {
    var rows := FetchUserTransactions(table, email);
    if rows == [] {
      return NoTransactions;
    }
    var column := new FraudCell[|rows|](i requires 0 <= i < |rows| => rows[i].isFraud);
    var converted := DecodeFraudColumn(column);
    assert column[..] == DecodedFraud(rows);
    o := FraudChart(|rows|, ValueCounts(column[..]), converted);
  }

  /** The fraud counts have one entry per distinct decoded value, none of
      them a byte string, each counting its rows, and they add up to the
      number of rows. */
  lemma FraudCountsSpec(rows: seq<Transaction>)
    ensures var counts := ValueCounts(DecodedFraud(rows));
      && UniqueKeys(counts)
      && (forall x :: HasKey(counts, x) <==> x in DecodedFraud(rows))
      && (forall i :: 0 <= i < |counts| ==> !counts[i].0.Raw?)
      && (forall i :: 0 <= i < |counts| ==> counts[i].1 == Count(DecodedFraud(rows), counts[i].0))
      && Total(counts) == |rows|
  {
    var cells := DecodedFraud(rows);
    var counts := ValueCounts(cells);
    ValueCountsSpec(cells);
    forall i | 0 <= i < |counts| ensures !counts[i].0.Raw? {
      assert HasKey(counts, counts[i].0);
      var j :| 0 <= j < |cells| && cells[j] == counts[i].0;
    }
  }

  /** `transaction_states`: the states the chart names, "Other" among them. */
  const TransactionStates: seq<string> := [
    "Maharashtra", "Andhra Pradesh", "Arunachal Pradesh", "Assam", "Bihar", "Chhattisgarh", "Goa", "Gujarat",
    "Haryana", "Himachal Pradesh", "Jharkhand", "Karnataka", "Kerala", "Madhya Pradesh", "Manipur", "Meghalaya",
    "Mizoram", "Nagaland", "Odisha", "Punjab", "Rajasthan", "Sikkim", "Tamil Nadu", "Telangana", "Tripura",
    "Uttar Pradesh", "Uttarakhand", "West Bengal", "Other"]

  /** The chart's bucket for a state: itself when listed, otherwise "Other". */
  function Bucket(state: string): (b: string)
    ensures b == state || b == "Other"
    ensures Listed(state) ==> b == state
  {
    if Listed(state) then state else "Other"
  }

  /** The state is one `transaction_states` names. */
  predicate Listed(state: string)
  {
    state in TransactionStates
  }

  /** Every bucket is a listed state. */
  lemma BucketListed(state: string)
    ensures Listed(Bucket(state))
  {
    assert TransactionStates[|TransactionStates| - 1] == "Other";
  }

  /** The label column overwritten in place by its buckets. */
  method RelabelStates(labels: array<string>)
    modifies labels
    ensures forall i :: 0 <= i < labels.Length ==> labels[i] == Bucket(old(labels[i]))
  {
    var i := 0;
    while i < labels.Length
      invariant 0 <= i <= labels.Length
      invariant forall j :: 0 <= j < i ==> labels[j] == Bucket(old(labels[j]))
      invariant forall j :: i <= j < labels.Length ==> labels[j] == old(labels[j])
    {
      labels[i] := Bucket(labels[i]);
      i := i + 1;
    }
  }

  /** The counts per state, relabelled and regrouped. */
  function StateCounts(states: seq<string>): seq<(string, nat)>
  {
    GroupSum(Relabel(ValueCounts(states), Bucket))
  }

  /** The state section: the user's rows counted per state, the labels
      overwritten by their buckets, and the counts grouped by label again. */
  method StateDistribution(table: seq<Transaction>, email: string) returns (counts: seq<(string, nat)>)
    ensures counts == StateCounts(MapSeq(FetchUserTransactions(table, email), (t: Transaction) => t.transactionState))
  {
    var rows := FetchUserTransactions(table, email);
    var stateCounts := ValueCounts(MapSeq(rows, (t: Transaction) => t.transactionState));
    var labels := new string[|stateCounts|](i requires 0 <= i < |stateCounts| => stateCounts[i].0);
    RelabelStates(labels);
    var buckets := labels[..];
    var relabelled := seq(|stateCounts|, i requires 0 <= i < |stateCounts| => (buckets[i], stateCounts[i].1));
    assert relabelled == Relabel(stateCounts, Bucket);
    counts := GroupSum(relabelled);
  }

  /** After regrouping, labels are unique and all listed; each label counts
      the rows whose state falls in its bucket, so a listed state other than
      "Other" keeps its own count, "Other" collects every unlisted state, and
      no row is lost. */
  lemma StateCountsSpec(states: seq<string>)
    ensures UniqueKeys(StateCounts(states))
    ensures forall i :: 0 <= i < |StateCounts(states)| ==> StateCounts(states)[i].0 in TransactionStates
    ensures forall name :: SumFor(StateCounts(states), name) == |KeepIf(states, (s: string) => Bucket(s) == name)|
    ensures forall name :: name in TransactionStates && name != "Other" ==>
              SumFor(StateCounts(states), name) == Count(states, name)
    ensures Total(StateCounts(states)) == |states|
  {
    var vc := ValueCounts(states);
    var relabelled := Relabel(vc, Bucket);
    var g := StateCounts(states);
    GroupSumKeepsCounts(relabelled);
    forall i | 0 <= i < |g| ensures g[i].0 in TransactionStates {
      assert HasKey(g, g[i].0);
      var j :| 0 <= j < |relabelled| && relabelled[j].0 == g[i].0;
      BucketListed(vc[j].0);
    }
    forall name ensures SumFor(g, name) == |KeepIf(states, (s: string) => Bucket(s) == name)| {
      var isLabel := (x: string) => x == name;
      var inBucket := (s: string) => Bucket(s) == name;
      SumForIsSumWhere(relabelled, name, isLabel);
      RelabelSumWhere(vc, Bucket, isLabel, inBucket);
      GroupSumKeepsSums(Ones(states), inBucket);
      OnesSumWhere(states, inBucket);
    }
    forall name | name in TransactionStates && name != "Other" ensures SumFor(g, name) == Count(states, name) {
      var inBucket := (s: string) => Bucket(s) == name;
      var isLabel := (s: string) => s == name;
      KeepIfSame(states, inBucket, isLabel);
      SumForIsSumWhere(Ones(states), name, isLabel);
      OnesSumWhere(states, isLabel);
      OnesSumFor(states, name);
    }
    var always := (x: string) => true;
    TotalIsSumWhere(relabelled, always);
    RelabelSumWhere(vc, Bucket, always, always);
    TotalIsSumWhere(vc, always);
    ValueCountsSpec(states);
  }
}
