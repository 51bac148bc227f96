/**
 * The confirmation engine: one confirmation of a category by a customer, the
 * monthly scoring cooldown, and the tiered badges it may award.
 *
 * `ConfirmOutcome` and `BadgeOutcome` state what one call returns and what the
 * stores hold afterwards; the methods of `ConfirmationHandler` do the same work
 * step by step, as the source does, and are proved equal to them.
 */
module Confirmation {
  import opened Wrappers
  import opened Categories
  import opened Repositories
  import opened Badges

  datatype ConfirmationResponse = ConfirmationResponse(
    pointsGained: int,
    nextPointsEligible: Time,
    newBadges: seq<BadgeType>)

  /** Points granted by one scoring confirmation. */
  const PointsPerScoring := 100

  /** Start value of the minimum search over the four history rows. */
  const MinScoredStart := 1000

  /** Scorings needed for badge level 1, 2 and 3. */
  function Threshold(level: int): int
  {
    if level == 1 then 1 else if level == 2 then 3 else 6
  }

  // ---------------------------------------------------------------------
  // Specification

  /** `hasBadge`: some owned badge carries the same code. */
  predicate Owns(owned: seq<BadgeType>, b: BadgeType)
  {
    exists i :: 0 <= i < |owned| && owned[i].code == b.code
  }

  /** The row the engine starts from: the stored one, or a zeroed row for (cif, code). */
  function CurrentRow(history: seq<HistoryRecord>, cif: string, code: string): (row: HistoryRecord)
    ensures HasKey(row, cif, code)
  {
    match FindHistory(history, cif, code)
    case Some(r) => r
    case None => HistoryRecord(code, cif, ZeroTime, ZeroTime, 0, 0)
  }

  /** The score the score getter yields: the stored one, or 0 from Go's zero record. */
  function StoredScore(scores: map<string, int>, cif: string): int
  {
    ScoreLookup(scores, cif).0.score
  }

  /** The cooldown test: one month after the last scoring lies strictly before `now`. */
  predicate Eligible(row: HistoryRecord, now: Time, addMonth: MonthAdder)
  {
    addMonth(row.lastScored) < now
  }

  /** The row after a confirmation at `now`. */
  function Confirmed(row: HistoryRecord, now: Time, addMonth: MonthAdder): (r: HistoryRecord)
    ensures r.cif == row.cif && r.categoryCode == row.categoryCode
    ensures r.lastConfirmed == now && r.timesConfirmed == row.timesConfirmed + 1
    ensures Eligible(row, now, addMonth) ==> r.lastScored == now && r.timesScored == row.timesScored + 1
    ensures !Eligible(row, now, addMonth) ==> r.lastScored == row.lastScored && r.timesScored == row.timesScored
  {
    var scored := if Eligible(row, now, addMonth) then row.(lastScored := now, timesScored := row.timesScored + 1) else row;
    scored.(lastConfirmed := now, timesConfirmed := scored.timesConfirmed + 1)
  }

  /** The level badge of `cat`, when `count` reaches its threshold and it is not owned yet. */
  function Tier(cat: ScoreCategory, level: int, count: int, owned: seq<BadgeType>): seq<BadgeType>
  {
    var b := CatalogBadge(cat, level);
    if count >= Threshold(level) && !Owns(owned, b) then [b] else []
  }

  /** The new badges of one category, level 1 first. */
  function TierBadges(cat: ScoreCategory, count: int, owned: seq<BadgeType>): seq<BadgeType>
  {
    Tier(cat, 1, count, owned) + Tier(cat, 2, count, owned) + Tier(cat, 3, count, owned)
  }

  /** The minimum loop over the rows, started at `m`. */
  function MinScoredFrom(m: int, rows: seq<HistoryRecord>): int
    decreases |rows|
  {
    if rows == [] then m
    else MinScoredFrom(if m > rows[0].timesScored then rows[0].timesScored else m, rows[1..])
  }

  /** The scoring count used for the ALL tier: the minimum over exactly four rows, else 0. */
  function MinScored(rows: seq<HistoryRecord>): int
  {
    if |rows| == 4 then MinScoredFrom(MinScoredStart, rows) else 0
  }

  /** The badge writes, in order; the first failing write stops the rest. */
  function WriteAwards(awards: seq<BadgeAward>, failing: set<Call>, cif: string, badges: seq<BadgeType>, now: Time)
    : (Option<Call>, seq<BadgeAward>)
    decreases |badges|
  {
    if badges == [] then (None, awards)
    else if BadgePut(badges[0].code) in failing then (Some(BadgePut(badges[0].code)), awards)
    else WriteAwards(awards + [BadgeAward(badges[0].code, cif, now)], failing, cif, badges[1..], now)
  }

  /** The category tier of `handleBadges`: new badges of `category` for `count` scorings. */
  function EarnedBadges(t: Tables, cif: string, category: ScoreCategory, count: int): seq<BadgeType>
  {
    TierBadges(category, count, BadgesOfCategory(t.awards, cif, category))
  }

  /** The ALL tier of `handleBadges`, from the customer's history rows. */
  function AllTierBadges(t: Tables, cif: string): seq<BadgeType>
  {
    TierBadges(All, MinScored(RowsOf(t.history, cif)), BadgesOfCategory(t.awards, cif, All))
  }

  /** The badges `handleBadges` decides on: none unless the category tier yields one. */
  function NewBadges(t: Tables, cif: string, category: ScoreCategory, count: int): seq<BadgeType>
  {
    var earned := EarnedBadges(t, cif, category, count);
    if earned == [] then [] else earned + AllTierBadges(t, cif)
  }

  /** `handleBadges`: the badges awarded for `scoreCount` scorings in `category`, and the stores after. */
  function BadgeOutcome(t: Tables, failing: set<Call>, cif: string, category: ScoreCategory, scoreCount: int, now: Time)
    : (Result<seq<BadgeType>, Call>, Tables)
  {
    if BadgeGet(category.code) in failing then (Err(BadgeGet(category.code)), t)
    else if EarnedBadges(t, cif, category, scoreCount) == [] then (Ok([]), t)
    else if BadgeGet(All.code) in failing then (Err(BadgeGet(All.code)), t)
    else if HistoryGetAll in failing then (Err(HistoryGetAll), t)
    else
      var badges := NewBadges(t, cif, category, scoreCount);
      var written := WriteAwards(t.awards, failing, cif, badges, now);
      (if written.0.Some? then Err(written.0.value) else Ok(badges), t.(awards := written.1))
  }

  /** The scoring tail of `ConfirmCategory`: the score write, then `handleBadges`. */
  function ScoringOutcome(t: Tables, failing: set<Call>, cif: string, category: ScoreCategory, score: ScoreRecord, scoreCount: int, now: Time)
    : (Result<seq<BadgeType>, Call>, Tables)
  {
    if ScorePut in failing then (Err(ScorePut), t)
    else BadgeOutcome(t.(scores := t.scores[score.cif := score.score]), failing, cif, category, scoreCount, now)
  }

  /** `ConfirmCategory`: the response to one confirmation at `now`, and the stores after. */
  function ConfirmOutcome(t: Tables, failing: set<Call>, cif: string, category: ScoreCategory, now: Time, addMonth: MonthAdder)
    : (Result<ConfirmationResponse, Call>, Tables)
  {
    if ScoreGet in failing then (Err(ScoreGet), t)
    else if HistoryGet in failing then (Err(HistoryGet), t)
    else
      var row := CurrentRow(t.history, cif, category.code);
      var row' := Confirmed(row, now, addMonth);
      if HistoryPut in failing then (Err(HistoryPut), t)
      else
        var t1 := t.(history := Upsert(t.history, row'));
        if !Eligible(row, now, addMonth) then
          (Ok(ConfirmationResponse(0, addMonth(row'.lastScored), [])), t1)
        else
          var score := ScoreRecord(cif, StoredScore(t.scores, cif) + PointsPerScoring);
          var (badges, t3) := ScoringOutcome(t1, failing, cif, category, score, row'.timesScored, now);
          match badges
          case Err(e) => (Err(e), t3)
          case Ok(b) => (Ok(ConfirmationResponse(PointsPerScoring, addMonth(row'.lastScored), b)), t3)
  }

  // ---------------------------------------------------------------------
  // Implementation

  /** `hasBadge`: a linear scan for the code. */
  method HasBadge(owned: seq<BadgeType>, badgeType: BadgeType) returns (found: bool)
    ensures found <==> Owns(owned, badgeType)
    ensures found <==> exists i :: 0 <= i < |owned| && owned[i].code == badgeType.code
  {
    for i := 0 to |owned|
      invariant forall k | 0 <= k < i :: owned[k].code != badgeType.code
    {
      if owned[i].code == badgeType.code {
        return true;
      }
    }
    return false;
  }

  /**
   * The handler: its getter and putter fields are the three stores, here
   * fields of the object; `failing` names the repository calls that fail.
   */
  class ConfirmationHandler {
    var scores: map<string, int>
    var history: seq<HistoryRecord>
    var awards: seq<BadgeAward>
    const failing: set<Call>

    constructor (scores: map<string, int>, history: seq<HistoryRecord>, awards: seq<BadgeAward>, failing: set<Call>)
      ensures this.scores == scores && this.history == history && this.awards == awards
      ensures this.failing == failing
    {
      this.scores := scores;
      this.history := history;
      this.awards := awards;
      this.failing := failing;
    }

    function Stores(): Tables
      reads this
    {
      Tables(scores, history, awards)
    }

    // The repository calls.

    method ScoreGetter(cif: string) returns (r: Result<(ScoreRecord, bool), Call>)
      ensures r == if ScoreGet in failing then Err(ScoreGet) else Ok(ScoreLookup(scores, cif))
    {
      if ScoreGet in failing { return Err(ScoreGet); }
      return Ok(ScoreLookup(scores, cif));
    }

    method ScorePutter(record: ScoreRecord) returns (err: Option<Call>)
      modifies this
      ensures err == if ScorePut in failing then Some(ScorePut) else None
      ensures scores == if ScorePut in failing then old(scores) else old(scores)[record.cif := record.score]
      ensures history == old(history) && awards == old(awards)
    {
      if ScorePut in failing { return Some(ScorePut); }
      scores := scores[record.cif := record.score];
      return None;
    }

    method CategoryGetter(cif: string, code: string) returns (r: Result<(HistoryRecord, bool), Call>)
      ensures HistoryGet in failing ==> r == Err(HistoryGet)
      ensures HistoryGet !in failing ==> r.Ok? && match FindHistory(history, cif, code)
        case Some(row) => r.value == (row, true)
        case None => !r.value.1
    {
      if HistoryGet in failing { return Err(HistoryGet); }
      match FindHistory(history, cif, code)
      case Some(row) => return Ok((row, true));
      case None => return Ok((HistoryRecord("", "", ZeroTime, ZeroTime, 0, 0), false));
    }

    method CategoryGetAll(cif: string) returns (r: Result<seq<HistoryRecord>, Call>)
      ensures r == if HistoryGetAll in failing then Err(HistoryGetAll) else Ok(RowsOf(history, cif))
    {
      if HistoryGetAll in failing { return Err(HistoryGetAll); }
      return Ok(RowsOf(history, cif));
    }

    method CategoryPutter(record: HistoryRecord) returns (err: Option<Call>)
      modifies this
      ensures err == if HistoryPut in failing then Some(HistoryPut) else None
      ensures history == if HistoryPut in failing then old(history) else Upsert(old(history), record)
      ensures scores == old(scores) && awards == old(awards)
    {
      if HistoryPut in failing { return Some(HistoryPut); }
      history := Upsert(history, record);
      return None;
    }

    /** The badge read; `scope` is the category code the read is made for ("" when unfiltered). */
    method BadgeGetter(cif: string, scope: string) returns (r: Result<seq<BadgeAward>, Call>)
      ensures r == if BadgeGet(scope) in failing then Err(BadgeGet(scope)) else Ok(AwardsOf(awards, cif))
    {
      if BadgeGet(scope) in failing { return Err(BadgeGet(scope)); }
      return Ok(AwardsOf(awards, cif));
    }

    method BadgePutter(record: BadgeAward) returns (err: Option<Call>)
      modifies this
      ensures err == if BadgePut(record.badgeCode) in failing then Some(BadgePut(record.badgeCode)) else None
      ensures awards == if err.Some? then old(awards) else old(awards) + [record]
      ensures scores == old(scores) && history == old(history)
    {
      if BadgePut(record.badgeCode) in failing { return Some(BadgePut(record.badgeCode)); }
      awards := awards + [record];
      return None;
    }

    // The badge reads.

    /** `getBadges`: the catalog types of the customer's awards that satisfy `pred`, in award order. */
    method GetBadges(cif: string, pred: BadgeType -> bool, scope: string) returns (r: Result<seq<BadgeType>, Call>)
      ensures BadgeGet(scope) in failing ==> r == Err(BadgeGet(scope))
      ensures BadgeGet(scope) !in failing ==> r == Ok(MatchingBadges(AwardsOf(awards, cif), pred))
    {
      var got := BadgeGetter(cif, scope);
      if got.Err? { return Err(got.error); }
      var allBadges := got.value;
      var matchingBadges := [];
      for i := 0 to |allBadges|
        invariant matchingBadges == MatchingBadges(allBadges[..i], pred)
      {
        var b := allBadges[i];
        MatchingBadgesStep(allBadges, i, pred);
        if b.badgeCode in BadgeTypeLookup && pred(BadgeTypeLookup[b.badgeCode]) {
          matchingBadges := matchingBadges + [BadgeTypeLookup[b.badgeCode]];
        }
      }
      assert allBadges[..|allBadges|] == allBadges;
      return Ok(matchingBadges);
    }

    /** `GetBadgesByCategory`: the customer's badges of one category. */
    method GetBadgesByCategory(cif: string, cat: ScoreCategory) returns (r: Result<seq<BadgeType>, Call>)
      ensures BadgeGet(cat.code) in failing ==> r == Err(BadgeGet(cat.code))
      ensures BadgeGet(cat.code) !in failing ==> r == Ok(BadgesOfCategory(awards, cif, cat))
      ensures r.Ok? ==> forall b | b in r.value :: b.category == cat && b in AllBadgeTypes
    {
      r := GetBadges(cif, InCategory(cat), cat.code);
      BadgesOfCategoryInCategory(awards, cif, cat);
    }

    /** `GetAllBadges`: all the customer's badges whose code is in the catalog. */
    method GetAllBadges(cif: string) returns (r: Result<seq<BadgeType>, Call>)
      ensures BadgeGet("") in failing ==> r == Err(BadgeGet(""))
      ensures BadgeGet("") !in failing ==> r == Ok(MatchingBadges(AwardsOf(awards, cif), AnyBadge()))
      ensures r.Ok? ==> forall a | a in awards && a.cif == cif && a.badgeCode in BadgeTypeLookup ::
        BadgeTypeLookup[a.badgeCode] in r.value
    {
      r := GetBadges(cif, AnyBadge(), "");
      if r.Ok? {
        var records := AwardsOf(awards, cif);
        MatchingBadgesMembers(records, AnyBadge());
        forall a | a in awards && a.cif == cif && a.badgeCode in BadgeTypeLookup
          ensures BadgeTypeLookup[a.badgeCode] in r.value
        {
          var k :| 0 <= k < |records| && records[k] == a;
          assert AnyBadge()(BadgeTypeLookup[a.badgeCode]);
        }
      }
    }

    // The engine.

    /** One step of a tier block: appends the `level` badge of `cat` when earned and not owned. */
    method AddTier(newBadges: seq<BadgeType>, cat: ScoreCategory, level: int, count: int, owned: seq<BadgeType>)
      returns (r: seq<BadgeType>)
      ensures r == newBadges + Tier(cat, level, count, owned)
    {
      r := newBadges;
      var badgeType, _ := GetBadgeType(cat, level);
      assert badgeType == CatalogBadge(cat, level);
      if count >= Threshold(level) {
        var has := HasBadge(owned, badgeType);
        if !has { r := r + [badgeType]; }
      }
    }

    /**
     * One tier block of `handleBadges`: for levels 1 to 3 of `cat`, appends the
     * level badge when `count` reaches its threshold and `owned` lacks it.
     */
    method AddTierBadges(newBadges: seq<BadgeType>, cat: ScoreCategory, count: int, owned: seq<BadgeType>)
      returns (r: seq<BadgeType>)
      ensures r == newBadges + TierBadges(cat, count, owned)
    {
      r := AddTier(newBadges, cat, 1, count, owned);
      r := AddTier(r, cat, 2, count, owned);
      r := AddTier(r, cat, 3, count, owned);
      assert r == newBadges + (Tier(cat, 1, count, owned) + Tier(cat, 2, count, owned) + Tier(cat, 3, count, owned));
    }

    /** The minimum loop of `handleBadges` over the customer's history rows. */
    method MinTimesScored(rows: seq<HistoryRecord>) returns (minScored: int)
      ensures minScored == MinScored(rows)
    {
      minScored := 0;
      if |rows| == 4 {
        minScored := MinScoredStart;
        for i := 0 to |rows|
          invariant MinScoredFrom(minScored, rows[i..]) == MinScoredFrom(MinScoredStart, rows)
        {
          assert rows[i..][1..] == rows[i + 1..];
          if minScored > rows[i].timesScored {
            minScored := rows[i].timesScored;
          }
        }
      }
    }

    /** The write loop of `handleBadges`: one award per badge, stopping at the first failure. */
    method PutBadges(cif: string, badges: seq<BadgeType>, now: Time) returns (err: Option<Call>)
      modifies this
      ensures (err, awards) == WriteAwards(old(awards), failing, cif, badges, now)
      ensures scores == old(scores) && history == old(history)
    {
      for i := 0 to |badges|
        invariant scores == old(scores) && history == old(history)
        invariant WriteAwards(awards, failing, cif, badges[i..], now)
               == WriteAwards(old(awards), failing, cif, badges, now)
      {
        assert badges[i..][1..] == badges[i + 1..];
        err := BadgePutter(BadgeAward(badges[i].code, cif, now));
        if err.Some? { return; }
      }
      return None;
    }

    /** `handleBadges`: decides the new category and ALL badges and writes each one. */
    method HandleBadges(cif: string, category: ScoreCategory, scoreCount: int, now: Time)
      returns (r: Result<seq<BadgeType>, Call>)
      modifies this
      ensures (r, Stores()) == BadgeOutcome(old(Stores()), failing, cif, category, scoreCount, now)
    {
      ghost var t := old(Stores());
      var got := GetBadgesByCategory(cif, category);
      if got.Err? { return Err(got.error); }
      var newBadges := AddTierBadges([], category, scoreCount, got.value);
      assert newBadges == EarnedBadges(t, cif, category, scoreCount);
      if |newBadges| == 0 {
        return Ok(newBadges);
      }

      got := GetBadgesByCategory(cif, All);
      if got.Err? { return Err(got.error); }
      var allCategoryBadges := got.value;

      var rowsGot := CategoryGetAll(cif);
      if rowsGot.Err? { return Err(rowsGot.error); }
      var minScored := MinTimesScored(rowsGot.value);
      newBadges := AddTierBadges(newBadges, All, minScored, allCategoryBadges);
      assert newBadges == NewBadges(t, cif, category, scoreCount);
      var err := PutBadges(cif, newBadges, now);
      if err.Some? { return Err(err.value); }
      return Ok(newBadges);
    }

    /** The scoring tail of `ConfirmCategory`: writes the raised score, then awards the badges. */
    method ScoreAndBadges(cif: string, category: ScoreCategory, score: ScoreRecord, scoreCount: int, now: Time)
      returns (r: Result<seq<BadgeType>, Call>)
      modifies this
      ensures (r, Stores()) == ScoringOutcome(old(Stores()), failing, cif, category, score, scoreCount, now)
    {
      var err := ScorePutter(score);
      if err.Some? { return Err(err.value); }
      r := HandleBadges(cif, category, scoreCount, now);
    }

    /** `ConfirmCategory`: records one confirmation and, past the cooldown, scores it. */
    method ConfirmCategory(cif: string, category: ScoreCategory, now: Time, addMonth: MonthAdder)
      returns (r: Result<ConfirmationResponse, Call>)
      modifies this
      ensures (r, Stores()) == ConfirmOutcome(old(Stores()), failing, cif, category, now, addMonth)
    {
      var scoreGot := ScoreGetter(cif);
      if scoreGot.Err? { return Err(scoreGot.error); }
      var (score, scoreFound) := scoreGot.value;

      var categoryGot := CategoryGetter(cif, category.code);
      if categoryGot.Err? { return Err(categoryGot.error); }
      var (categoryRecord, categoryFound) := categoryGot.value;

      if !categoryFound {
        categoryRecord := HistoryRecord(category.code, cif, ZeroTime, ZeroTime, 0, 0);
      }
      ghost var row := categoryRecord;
      assert row == CurrentRow(history, cif, category.code);

      var pointsGained := 0;
      if !scoreFound {
        score := ScoreRecord(cif, 0);
      }

      if addMonth(categoryRecord.lastScored) < now {
        pointsGained := PointsPerScoring;
        score := score.(score := score.score + pointsGained);
        categoryRecord := categoryRecord.(lastScored := now, timesScored := categoryRecord.timesScored + 1);
      }

      categoryRecord := categoryRecord.(lastConfirmed := now, timesConfirmed := categoryRecord.timesConfirmed + 1);
      assert categoryRecord == Confirmed(row, now, addMonth);
      ghost var t := old(Stores());
      var err := CategoryPutter(categoryRecord);
      if err.Some? { return Err(err.value); }
      assert Stores() == t.(history := Upsert(t.history, categoryRecord));

      var newBadges := [];
      if pointsGained > 0 {
        assert score == ScoreRecord(cif, StoredScore(t.scores, cif) + PointsPerScoring);
        var badges := ScoreAndBadges(cif, category, score, categoryRecord.timesScored, now);
        if badges.Err? { return Err(badges.error); }
        newBadges := badges.value;
      }

      return Ok(ConfirmationResponse(pointsGained, addMonth(categoryRecord.lastScored), newBadges));
    }
  }
}
