/** The `upi_reputation` board of pages/2_Upi_Reputation_Tracker.py: users
    rate a UPI ID from 1 to 5 and may flag it with a reason, at most once per
    (UPI ID, user) pair; a lookup summarises the ratings of one ID and grades
    the number of ratings into a trust level. */
module Reputation {
  import opened Collections

  /** The slider's range, also the table's CHECK constraint. */
  type Rating = r: int | 1 <= r <= 5 witness 1

  /** One row of `upi_reputation`; `flagReason` is NULL when no reason was
      given. */
  datatype ReputationRecord = ReputationRecord(
    id: nat,
    upiId: string,
    userEmail: string,
    rating: Rating,
    flagReason: Option<string>,
    timestamp: int)

  /** `flag_reason or None`: the empty text area stores NULL. */
  function StoredReason(flagReason: string): (r: Option<string>)
    ensures r.None? <==> flagReason == ""
    ensures r.Some? ==> r.value == flagReason
  {
    if flagReason == "" then None else Some(flagReason)
  }

  /** The duplicate check's query: some record pairs this UPI ID with this
      user. */
  predicate HasRated(records: seq<ReputationRecord>, upiId: string, userEmail: string)
    ensures HasRated(records, upiId, userEmail) <==>
      exists rec :: rec in RecordsFor(records, upiId) && rec.userEmail == userEmail
  {
    RatedAmongRecordsFor(records, upiId, userEmail);
    exists i :: 0 <= i < |records| && records[i].upiId == upiId && records[i].userEmail == userEmail
  }

  /** A record pairing the ID with the user is one of the ID's records. */
  lemma RatedAmongRecordsFor(records: seq<ReputationRecord>, upiId: string, userEmail: string)
    ensures (exists i :: 0 <= i < |records| && records[i].upiId == upiId && records[i].userEmail == userEmail) <==>
      exists rec :: rec in RecordsFor(records, upiId) && rec.userEmail == userEmail
  {
    var r := RecordsFor(records, upiId);
    if exists i :: 0 <= i < |records| && records[i].upiId == upiId && records[i].userEmail == userEmail {
      var i :| 0 <= i < |records| && records[i].upiId == upiId && records[i].userEmail == userEmail;
      assert records[i] in r;
    }
    if exists rec :: rec in r && rec.userEmail == userEmail {
      var rec :| rec in r && rec.userEmail == userEmail;
      var j :| 0 <= j < |r| && r[j] == rec;
      var i :| 0 <= i < |records| && records[i] == rec;
    }
  }

  /** No (UPI ID, user) pair occurs in two records. */
  ghost predicate OnePerRater(records: seq<ReputationRecord>)
  {
    forall i, j :: 0 <= i < j < |records| ==>
      records[i].upiId != records[j].upiId || records[i].userEmail != records[j].userEmail
  }

  /** The result of pressing "Submit Rating / Flag". */
  datatype SubmitOutcome = MissingUpiId | AlreadyRated | Recorded(id: nat)

  class ReputationTable {
    var records: seq<ReputationRecord>
    var nextId: nat

    /** One record per rater and UPI ID, and ids handed out in increasing
        order by the autoincrement key. */
    ghost predicate Valid()
      reads this
    {
      && OnePerRater(records)
      && (forall i, j :: 0 <= i < j < |records| ==> records[i].id < records[j].id)
      && (forall i :: 0 <= i < |records| ==> records[i].id < nextId)
    }

    constructor ()
      ensures Valid() && records == [] && nextId == 1
    {
      records := [];
      nextId := 1;
    }

    /** The guarded insert: an empty UPI ID is an error, a pair already rated
        gets a warning, and otherwise exactly one record is appended. */
    method Submit(upiId: string, userEmail: string, rating: Rating, flagReason: string, now: int)
      returns (outcome: SubmitOutcome)
      requires Valid()
      modifies this
      ensures Valid()
      ensures outcome.MissingUpiId? <==> upiId == ""
      ensures outcome.AlreadyRated? <==> upiId != "" && HasRated(old(records), upiId, userEmail)
      ensures !outcome.Recorded? ==> records == old(records) && nextId == old(nextId)
      ensures outcome.Recorded? ==>
                && outcome.id == old(nextId)
                && nextId == old(nextId) + 1
                && records == old(records) + [ReputationRecord(outcome.id, upiId, userEmail, rating,
                                                               StoredReason(flagReason), now)]
    {
      if upiId == "" {
        return MissingUpiId;
      }
      if HasRated(records, upiId, userEmail) {
        return AlreadyRated;
      }
      var id := nextId;
      records := records + [ReputationRecord(id, upiId, userEmail, rating, StoredReason(flagReason), now)];
      nextId := nextId + 1;
      outcome := Recorded(id);
    }
  }

  /** `SELECT * FROM upi_reputation WHERE upi_id = ?`. */
  function RecordsFor(records: seq<ReputationRecord>, upiId: string): (r: seq<ReputationRecord>)
    ensures |r| <= |records|
    ensures forall i :: 0 <= i < |r| ==> r[i].upiId == upiId && r[i] in records
    ensures forall i :: 0 <= i < |records| && records[i].upiId == upiId ==> records[i] in r
  {
    KeepIf(records, (rec: ReputationRecord) => rec.upiId == upiId)
  }

  /** The sum of the ratings: between one and five per record. */
  function SumRatings(records: seq<ReputationRecord>): (s: int)
    ensures |records| <= s <= 5 * |records|
    decreases |records|
  {
    if records == [] then 0 else records[0].rating + SumRatings(records[1..])
  }

  /** `mean()` of the ratings, exactly: it lies in the slider's range. */
  function Average(records: seq<ReputationRecord>): (a: real)
    requires records != []
    ensures a * (|records| as real) == SumRatings(records) as real
    ensures 1.0 <= a <= 5.0
  {
    var count := |records| as real;
    var total := SumRatings(records) as real;
    var a := total / count;
    assert a * count == total;
    assert (a - 1.0) * count == total - count;
    assert (5.0 - a) * count == 5.0 * count - total;
    ProductSign(a - 1.0, count);
    ProductSign(5.0 - a, count);
    a
  }

  lemma ProductSign(x: real, y: real)
    requires y > 0.0 && x * y >= 0.0
    ensures x >= 0.0
  {
  }

  /** `notnull().sum()`: the records carrying a flag reason. */
  function FlagCount(records: seq<ReputationRecord>): (n: nat)
    ensures n <= |records|
  {
    |KeepIf(records, (rec: ReputationRecord) => rec.flagReason.Some?)|
  }

  /** The trust levels, graded by the number of ratings. */
  datatype Tier = Unknown | LowTrust | MediumTrust | HighTrust

  /** The if/elif chain on the rating count. */
  function TrustTier(count: nat): (t: Tier)
    ensures t == Unknown <==> count <= 2
    ensures t == LowTrust <==> 3 <= count <= 5
    ensures t == MediumTrust <==> 6 <= count <= 10
    ensures t == HighTrust <==> 11 <= count
  {
    if count <= 2 then Unknown
    else if count <= 5 then LowTrust
    else if count <= 10 then MediumTrust
    else HighTrust
  }

  /** The position of a tier in the order Unknown < Low < Medium < High. */
  function Rank(t: Tier): nat
  {
    match t
    case Unknown => 0
    case LowTrust => 1
    case MediumTrust => 2
    case HighTrust => 3
  }

  /** More ratings never lower the trust level. */
  lemma TierMonotone(a: nat, b: nat)
    requires a <= b
    ensures Rank(TrustTier(a)) <= Rank(TrustTier(b))
  {
  }

  /** The shown text of each trust level. */
  function TierText(t: Tier): string
  {
    match t
    case Unknown => "\U{26AA}\U{FE0F} Unknown"
    case LowTrust => "\U{1F7E1} Low Trust"
    case MediumTrust => "\U{1F7E0} Medium Trust"
    case HighTrust => "\U{1F7E2} High Trust"
  }

  /** `color_map`: the background colour of each trust level's text. */
  const ColorMap: map<string, string> := map[
    "\U{26AA}\U{FE0F} Unknown" := "#cccccc",
    "\U{1F7E1} Low Trust" := "#f1c40f",
    "\U{1F7E0} Medium Trust" := "#e67e22",
    "\U{1F7E2} High Trust" := "#2ecc71"]

  /** Every level has a colour, and distinct levels have distinct texts. */
  lemma EveryTierHasColour(t: Tier, u: Tier)
    ensures TierText(t) in ColorMap
    ensures t != u ==> TierText(t) != TierText(u)
  {
    assert TierText(t)[|TierText(t)| - 1] != TierText(u)[|TierText(u)| - 1] || t == u
      || |TierText(t)| != |TierText(u)|;
  }

  /** `color_map[trust_level]`. */
  function Colour(t: Tier): (c: string)
    ensures TierText(t) in ColorMap && c == ColorMap[TierText(t)]
  {
    EveryTierHasColour(t, t);
    ColorMap[TierText(t)]
  }

  /** What "Check Reputation" shows. */
  datatype LookupResult =
    | NotRequested
    | NoData
    | Summary(average: real, flags: nat, count: nat, trustLevel: string, colour: string)

  /** The lookup: nothing unless the button is pressed with a non-empty ID,
      the "no data" message when the ID has no records, and otherwise the
      mean rating, the number flagged, the number of ratings and the trust
      level with its colour. */
  function Lookup(records: seq<ReputationRecord>, pressed: bool, upiId: string): (r: LookupResult)
    ensures r.NotRequested? <==> !pressed || upiId == ""
    ensures r.NoData? <==> pressed && upiId != "" && RecordsFor(records, upiId) == []
    ensures r.Summary? ==>
              && r.count == |RecordsFor(records, upiId)| > 0
              && r.flags == FlagCount(RecordsFor(records, upiId)) <= r.count
              && r.average == Average(RecordsFor(records, upiId))
              && r.trustLevel == TierText(TrustTier(r.count))
              && r.trustLevel in ColorMap && r.colour == ColorMap[r.trustLevel]
  {
    if !pressed || upiId == "" then NotRequested
    else
      var found := RecordsFor(records, upiId);
      if found == [] then NoData
      else
        var tier := TrustTier(|found|);
        Summary(Average(found), FlagCount(found), |found|, TierText(tier), Colour(tier))
  }

  /** A recorded submission adds one to the count of its UPI ID and leaves
      every other ID's records as they were. */
  lemma {:induction false} RecordedRaisesCount(records: seq<ReputationRecord>, added: ReputationRecord, upiId: string)
    ensures RecordsFor(records + [added], upiId)
              == RecordsFor(records, upiId) + (if added.upiId == upiId then [added] else [])
  {
    var keep := (rec: ReputationRecord) => rec.upiId == upiId;
    KeepIfConcat(records, [added], keep);
    assert KeepIf([added], keep) == (if added.upiId == upiId then [added] else []) by {
      assert [added][1..] == [];
    }
  }

  /** Selecting records keeps the one-per-rater property. */
  lemma {:induction false} SelectionKeepsOnePerRater(records: seq<ReputationRecord>, keep: ReputationRecord -> bool)
    requires OnePerRater(records)
    ensures OnePerRater(KeepIf(records, keep))
    decreases |records|
  {
    if records != [] {
      var rest := records[1..];
      assert OnePerRater(rest) by {
        forall i, j | 0 <= i < j < |rest|
          ensures rest[i].upiId != rest[j].upiId || rest[i].userEmail != rest[j].userEmail
        {
          assert rest[i] == records[i + 1] && rest[j] == records[j + 1];
        }
      }
      SelectionKeepsOnePerRater(rest, keep);
      var tail := KeepIf(rest, keep);
      forall k | 0 <= k < |tail|
        ensures records[0].upiId != tail[k].upiId || records[0].userEmail != tail[k].userEmail
      {
        var j :| 0 <= j < |rest| && rest[j] == tail[k];
        assert records[j + 1] == tail[k];
      }
    }
  }

  /** On a valid board the records of one UPI ID come from distinct users:
      the count of a lookup is the number of users who rated it. */
  lemma RatersDistinct(records: seq<ReputationRecord>, upiId: string)
    requires OnePerRater(records)
    ensures forall i, j :: 0 <= i < j < |RecordsFor(records, upiId)| ==>
              RecordsFor(records, upiId)[i].userEmail != RecordsFor(records, upiId)[j].userEmail
  {
    SelectionKeepsOnePerRater(records, (rec: ReputationRecord) => rec.upiId == upiId);
  }
}
