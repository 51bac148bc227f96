/**
 * The three per-customer stores behind the getter/putter fields of the
 * confirmation handler, as values: score per customer, one history row per
 * (customer, category code), and the badge awards in the order written.
 */
module Repositories {
  import opened Wrappers

  /** Timestamps. The zero time (Go's `time.Time{}`) is `ZeroTime`. */
  type Time = int
  const ZeroTime: Time := 0

  /**
   * `t.AddDate(0, 1, 0)`: calendar arithmetic is not modelled; the only fact
   * used is that adding a month moves a timestamp strictly forward.
   */
  type MonthAdder = f: int -> int | forall t :: t < f(t) witness (t: int) => t + 1

  datatype ScoreRecord = ScoreRecord(cif: string, score: int)

  datatype HistoryRecord = HistoryRecord(
    categoryCode: string,
    cif: string,
    lastConfirmed: Time,
    lastScored: Time,
    timesConfirmed: int,
    timesScored: int)

  datatype BadgeAward = BadgeAward(badgeCode: string, cif: string, dateAwarded: Time)

  /** The stores' contents. */
  datatype Tables = Tables(
    scores: map<string, int>,
    history: seq<HistoryRecord>,
    awards: seq<BadgeAward>)

  /** A repository call; a handler is configured with the set of calls that fail. */
  datatype Call =
    | ScoreGet | ScorePut | ScoreGetAll
    | HistoryGet | HistoryGetAll | HistoryPut
    | BadgeGet(scope: string) | BadgePut(code: string)

  /** The score getter's answer: the stored record and `found`, or Go's zero record. */
  function ScoreLookup(scores: map<string, int>, cif: string): (r: (ScoreRecord, bool))
    ensures r.1 <==> cif in scores
    ensures r.1 ==> r.0 == ScoreRecord(cif, scores[cif])
    ensures !r.1 ==> r.0.score == 0
  {
    if cif in scores then (ScoreRecord(cif, scores[cif]), true) else (ScoreRecord("", 0), false)
  }

  predicate HasKey(r: HistoryRecord, cif: string, code: string)
  {
    r.cif == cif && r.categoryCode == code
  }

  /** The history getter: the first row stored under (cif, code). */
  function FindHistory(rows: seq<HistoryRecord>, cif: string, code: string): (r: Option<HistoryRecord>)
    ensures r.Some? ==> HasKey(r.value, cif, code) && r.value in rows
    ensures r.None? <==> forall i | 0 <= i < |rows| :: !HasKey(rows[i], cif, code)
  {
    if rows == [] then None
    else if HasKey(rows[0], cif, code) then Some(rows[0])
    else FindHistory(rows[1..], cif, code)
  }

  /** The history putter: replace the row with the same key, or append a new one. */
  function Upsert(rows: seq<HistoryRecord>, rec: HistoryRecord): seq<HistoryRecord>
  {
    if rows == [] then [rec]
    else if HasKey(rows[0], rec.cif, rec.categoryCode) then [rec] + rows[1..]
    else [rows[0]] + Upsert(rows[1..], rec)
  }

  /** The history "get all": the customer's rows, in table order. */
  function RowsOf(rows: seq<HistoryRecord>, cif: string): (r: seq<HistoryRecord>)
    ensures |r| <= |rows|
    ensures forall x | x in r :: x in rows && x.cif == cif
  {
    if rows == [] then []
    else (if rows[0].cif == cif then [rows[0]] else []) + RowsOf(rows[1..], cif)
  }

  /** The badge getter: the customer's awards, in the order written. */
  function AwardsOf(awards: seq<BadgeAward>, cif: string): (r: seq<BadgeAward>)
    ensures forall x | x in r :: x in awards && x.cif == cif
    ensures forall x | x in awards && x.cif == cif :: x in r
  {
    if awards == [] then []
    else (if awards[0].cif == cif then [awards[0]] else []) + AwardsOf(awards[1..], cif)
  }

  /** At most one history row per (customer, category code). */
  predicate UniqueKeys(rows: seq<HistoryRecord>)
  {
    forall i, j | 0 <= i < j < |rows| ::
      !HasKey(rows[j], rows[i].cif, rows[i].categoryCode)
  }

  /** After a put, the getter returns the row just written. */
  lemma {:induction false} FindAfterUpsert(rows: seq<HistoryRecord>, rec: HistoryRecord)
    ensures FindHistory(Upsert(rows, rec), rec.cif, rec.categoryCode) == Some(rec)
  {
    if rows != [] && !HasKey(rows[0], rec.cif, rec.categoryCode) {
      FindAfterUpsert(rows[1..], rec);
    }
  }

  /** A put leaves every other key's row as it was. */
  lemma {:induction false} FindOtherAfterUpsert(rows: seq<HistoryRecord>, rec: HistoryRecord, cif: string, code: string)
    requires !HasKey(rec, cif, code)
    ensures FindHistory(Upsert(rows, rec), cif, code) == FindHistory(rows, cif, code)
  {
    if rows != [] && !HasKey(rows[0], rec.cif, rec.categoryCode) {
      FindOtherAfterUpsert(rows[1..], rec, cif, code);
    }
  }

  /** Every row after a put is either the new row or a row that was there before. */
  lemma {:induction false} UpsertRows(rows: seq<HistoryRecord>, rec: HistoryRecord)
    ensures forall x | x in Upsert(rows, rec) :: x == rec || x in rows
  {
    if rows != [] && !HasKey(rows[0], rec.cif, rec.categoryCode) {
      UpsertRows(rows[1..], rec);
    }
  }

  /**
   * GetAll after a put: a row under a new key is listed after the customer's
   * other rows; a row that replaces one leaves the number of rows as it was.
   */
  lemma {:induction false} RowsOfAfterUpsert(rows: seq<HistoryRecord>, rec: HistoryRecord)
    ensures FindHistory(rows, rec.cif, rec.categoryCode).None? ==>
      RowsOf(Upsert(rows, rec), rec.cif) == RowsOf(rows, rec.cif) + [rec]
    ensures FindHistory(rows, rec.cif, rec.categoryCode).Some? ==>
      |RowsOf(Upsert(rows, rec), rec.cif)| == |RowsOf(rows, rec.cif)|
  {
    if rows == [] {
      assert Upsert(rows, rec) == [rec];
      assert [rec][1..] == [];
    } else if HasKey(rows[0], rec.cif, rec.categoryCode) {
      assert Upsert(rows, rec)[1..] == rows[1..];
    } else {
      RowsOfAfterUpsert(rows[1..], rec);
      assert Upsert(rows, rec)[1..] == Upsert(rows[1..], rec);
    }
  }

  /** A put keeps one row per key. */
  lemma {:induction false} UpsertKeepsUniqueKeys(rows: seq<HistoryRecord>, rec: HistoryRecord)
    requires UniqueKeys(rows)
    ensures UniqueKeys(Upsert(rows, rec))
  {
    if rows == [] {
    } else if HasKey(rows[0], rec.cif, rec.categoryCode) {
      var u := Upsert(rows, rec);
      forall i, j | 0 <= i < j < |u| ensures !HasKey(u[j], u[i].cif, u[i].categoryCode) {
        assert u[j] == rows[j];
        if i > 0 { assert u[i] == rows[i]; }
      }
    } else {
      var tail := rows[1..];
      assert UniqueKeys(tail) by {
        forall i, j | 0 <= i < j < |tail| ensures !HasKey(tail[j], tail[i].cif, tail[i].categoryCode) {
          assert tail[i] == rows[i + 1] && tail[j] == rows[j + 1];
        }
      }
      UpsertKeepsUniqueKeys(tail, rec);
      UpsertRows(tail, rec);
      var u := Upsert(rows, rec);
      forall i, j | 0 <= i < j < |u| ensures !HasKey(u[j], u[i].cif, u[i].categoryCode) {
        if i == 0 {
          assert u[j] in Upsert(tail, rec);
          if u[j] != rec {
            var k :| 0 <= k < |tail| && tail[k] == u[j];
            assert rows[k + 1] == u[j];
          }
        } else {
          assert u[i] == Upsert(tail, rec)[i - 1] && u[j] == Upsert(tail, rec)[j - 1];
        }
      }
    }
  }
}
