/** The search of pages/3_Transaction_history.py: the whole `transactions`
    table, narrowed when "Search" is pressed by an optional transaction id and
    four drop-downs whose "All" choice leaves their column unconstrained. */
module History {
  import opened Collections
  import opened Text
  import opened TransactionStore

  /** The drop-down choice that puts no constraint on its column. */
  const All: string := "All"

  /** The sidebar's search fields: the id text box and the four drop-downs. */
  datatype Search = Search(
    idText: string,
    transactionType: string,
    paymentGateway: string,
    transactionState: string,
    merchantCategory: string)

  /** What the page shows: the `int()` failure on the id text, the "No
      transactions found" error, or one card per row. */
  datatype Page = InvalidId(text: string) | NoneFound | Cards(rows: seq<Transaction>)

  /** One `rows[rows[column] == choice]` step, skipped for "All". */
  function ByChoice(rows: seq<Transaction>, choice: string, column: Transaction -> string): (r: seq<Transaction>)
    ensures choice == All ==> r == rows
    ensures Subsequence(r, rows)
    ensures forall t :: t in r <==> t in rows && (choice == All || column(t) == choice)
  {
    SubsequenceRefl(rows);
    if choice == All then rows else KeepIf(rows, (t: Transaction) => column(t) == choice)
  }

  /** The rows the search keeps, or the id text `int()` rejects. Without a
      press of "Search" the table comes back whole. */
  function Filtered(all: seq<Transaction>, searched: bool, s: Search): (r: Result<seq<Transaction>, string>)
    ensures !searched ==> r == Ok(all)
    ensures r.Err? <==> searched && s.idText != "" && ParseInt(s.idText).None?
    ensures r.Err? ==> r.error == s.idText
  {
    if !searched then Ok(all)
    else if s.idText != "" && ParseInt(s.idText).None? then Err(s.idText)
    else
      var byType := ByChoice(ById(all, s), s.transactionType, (t: Transaction) => t.transactionType);
      var byGateway := ByChoice(byType, s.paymentGateway, (t: Transaction) => t.paymentGateway);
      var byState := ByChoice(byGateway, s.transactionState, (t: Transaction) => t.transactionState);
      Ok(ByChoice(byState, s.merchantCategory, (t: Transaction) => t.merchantCategory))
  }

  /** The whole search as one condition on a row: each non-empty field is
      matched on its column. */
  predicate Matches(s: Search, t: Transaction)
  {
    && (s.idText == "" || ParseInt(s.idText) == Some(t.id as int))
    && (s.transactionType == All || t.transactionType == s.transactionType)
    && (s.paymentGateway == All || t.paymentGateway == s.paymentGateway)
    && (s.transactionState == All || t.transactionState == s.transactionState)
    && (s.merchantCategory == All || t.merchantCategory == s.merchantCategory)
  }

  /** A skipped or applied drop-down step is a selection by its condition. */
  lemma ByChoiceIsKeepIf(rows: seq<Transaction>, choice: string, column: Transaction -> string, p: Transaction -> bool)
    requires forall t :: p(t) == (choice == All || column(t) == choice)
    ensures ByChoice(rows, choice, column) == KeepIf(rows, p)
  {
    if choice == All {
      KeepIfAll(rows, p);
    } else {
      KeepIfSame(rows, (t: Transaction) => column(t) == choice, p);
    }
  }

  /** The first `k` fields of the search hold for row `t`. */
  predicate MatchesUpTo(s: Search, t: Transaction, k: nat)
  {
    && (s.idText == "" || ParseInt(s.idText) == Some(t.id as int))
    && (k < 2 || s.transactionType == All || t.transactionType == s.transactionType)
    && (k < 3 || s.paymentGateway == All || t.paymentGateway == s.paymentGateway)
    && (k < 4 || s.transactionState == All || t.transactionState == s.transactionState)
    && (k < 5 || s.merchantCategory == All || t.merchantCategory == s.merchantCategory)
  }

  /** The rows kept by the id box. */
  function ById(all: seq<Transaction>, s: Search): (r: seq<Transaction>)
    requires s.idText == "" || ParseInt(s.idText).Some?
    ensures s.idText == "" ==> r == all
    ensures Subsequence(r, all)
    ensures forall t :: t in r <==> t in all && (s.idText == "" || t.id as int == ParseInt(s.idText).value)
  {
    SubsequenceRefl(all);
    if s.idText == "" then all else KeepIf(all, (t: Transaction) => t.id as int == ParseInt(s.idText).value)
  }

  /** Adding one drop-down step to a selection strengthens its condition. */
  lemma ChoiceStep(all: seq<Transaction>, rows: seq<Transaction>, prev: Transaction -> bool,
                   choice: string, column: Transaction -> string, both: Transaction -> bool)
    requires rows == KeepIf(all, prev)
    requires forall t :: both(t) == (prev(t) && (choice == All || column(t) == choice))
    ensures ByChoice(rows, choice, column) == KeepIf(all, both)
  {
    var p := (t: Transaction) => choice == All || column(t) == choice;
    ByChoiceIsKeepIf(rows, choice, column, p);
    KeepIfFuse(all, prev, p, both);
  }

  /** A pressed search keeps exactly the rows matching every field, in table
      order: the chain of masks is one selection by the conjunction. */
  lemma FilteredSelectsMatches(all: seq<Transaction>, s: Search)
    requires Filtered(all, true, s).Ok?
    ensures Filtered(all, true, s).value == KeepIf(all, (t: Transaction) => Matches(s, t))
  {
    var byId := ById(all, s);
    var p1 := (t: Transaction) => MatchesUpTo(s, t, 1);
    if s.idText == "" {
      KeepIfAll(all, p1);
    } else {
      KeepIfSame(all, (t: Transaction) => t.id as int == ParseInt(s.idText).value, p1);
    }
    var p2 := (t: Transaction) => MatchesUpTo(s, t, 2);
    var byType := ByChoice(byId, s.transactionType, (t: Transaction) => t.transactionType);
    ChoiceStep(all, byId, p1, s.transactionType, (t: Transaction) => t.transactionType, p2);
    var p3 := (t: Transaction) => MatchesUpTo(s, t, 3);
    var byGateway := ByChoice(byType, s.paymentGateway, (t: Transaction) => t.paymentGateway);
    ChoiceStep(all, byType, p2, s.paymentGateway, (t: Transaction) => t.paymentGateway, p3);
    var p4 := (t: Transaction) => MatchesUpTo(s, t, 4);
    var byState := ByChoice(byGateway, s.transactionState, (t: Transaction) => t.transactionState);
    ChoiceStep(all, byGateway, p3, s.transactionState, (t: Transaction) => t.transactionState, p4);
    var p5 := (t: Transaction) => MatchesUpTo(s, t, 5);
    var byCategory := ByChoice(byState, s.merchantCategory, (t: Transaction) => t.merchantCategory);
    ChoiceStep(all, byState, p4, s.merchantCategory, (t: Transaction) => t.merchantCategory, p5);
    KeepIfSame(all, p5, (t: Transaction) => Matches(s, t));
    assert Filtered(all, true, s).value == byCategory;
  }

  /** A search's result is an order-preserving selection of the table whose
      rows all match, and it misses no matching row. */
  lemma FilteredIsExact(all: seq<Transaction>, searched: bool, s: Search)
    requires Filtered(all, searched, s).Ok?
    ensures Subsequence(Filtered(all, searched, s).value, all)
    ensures searched ==> forall t :: t in Filtered(all, searched, s).value <==> t in all && Matches(s, t)
  {
    if searched {
      FilteredSelectsMatches(all, s);
      var r := Filtered(all, searched, s).value;
      forall t ensures t in r <==> t in all && Matches(s, t) {
        if t in all && Matches(s, t) {
          var i :| 0 <= i < |all| && all[i] == t;
        }
      }
    } else {
      SubsequenceRefl(all);
    }
  }

  /** Ids increase along the table, so selecting by one id keeps at most one
      row. */
  lemma {:induction false} AtMostOneWithId(rows: seq<Transaction>, keep: Transaction -> bool, n: int)
    requires IdsIncreasing(rows)
    requires forall t :: keep(t) ==> t.id as int == n
    ensures |KeepIf(rows, keep)| <= 1
    decreases |rows|
  {
    if rows != [] {
      if keep(rows[0]) {
        forall i | 0 <= i < |rows[1..]| ensures !keep(rows[1..][i]) {
          assert rows[1..][i] == rows[i + 1];
        }
        KeepIfNone(rows[1..], keep);
      } else {
        AtMostOneWithId(rows[1..], keep, n);
      }
    }
  }

  /** Searching by id gives at most one row. */
  lemma IdSearchAtMostOne(all: seq<Transaction>, s: Search)
    requires IdsIncreasing(all) && s.idText != "" && Filtered(all, true, s).Ok?
    ensures |Filtered(all, true, s).value| <= 1
  {
    FilteredSelectsMatches(all, s);
    AtMostOneWithId(all, (t: Transaction) => Matches(s, t), ParseInt(s.idText).value);
  }

  /** The page: the failed `int()`, the "No transactions found" error for an
      empty result, or the cards of a non-empty one. */
  function HistoryPage(all: seq<Transaction>, searched: bool, s: Search): (p: Page)
    ensures p.InvalidId? <==> searched && s.idText != "" && ParseInt(s.idText).None?
    ensures p.NoneFound? <==> Filtered(all, searched, s) == Ok([])
    ensures p.Cards? ==> p.rows != [] && Filtered(all, searched, s) == Ok(p.rows)
    ensures !searched ==> p == if all == [] then NoneFound else Cards(all)
  {
    match Filtered(all, searched, s)
    case Err(text) => InvalidId(text)
    case Ok(rows) => if rows == [] then NoneFound else Cards(rows)
  }
}
