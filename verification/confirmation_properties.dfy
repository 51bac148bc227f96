/**
 * What one confirmation promises, stated on `ConfirmOutcome` and
 * `BadgeOutcome` (and so, through their `ensures`, on the handler's methods).
 */
module ConfirmationProperties {
  import opened Wrappers
  import opened Categories
  import opened Repositories
  import opened Badges
  import opened Confirmation
  import opened BadgeRules

  /** A history table keeps one row per key, each scored at most as often as confirmed. */
  predicate ValidHistory(rows: seq<HistoryRecord>)
  {
    UniqueKeys(rows) && forall i | 0 <= i < |rows| :: 0 <= rows[i].timesScored <= rows[i].timesConfirmed
  }

  /** The award rows the write loop builds for `badges`. */
  function AwardRecords(cif: string, badges: seq<BadgeType>, now: Time): seq<BadgeAward>
  {
    seq(|badges|, k requires 0 <= k < |badges| => BadgeAward(badges[k].code, cif, now))
  }

  /** The stores a scoring confirmation hands to `handleBadges`: history recorded, 100 points added. */
  function ScoredTables(t: Tables, cif: string, category: ScoreCategory, now: Time, addMonth: MonthAdder): Tables
  {
    var t1 := t.(history := Upsert(t.history, Confirmed(CurrentRow(t.history, cif, category.code), now, addMonth)));
    t1.(scores := t1.scores[cif := StoredScore(t.scores, cif) + PointsPerScoring])
  }

  // ---------------------------------------------------------------------
  // handleBadges

  /** `handleBadges` writes neither scores nor history. */
  lemma BadgeOutcomeKeepsScoresAndHistory(t: Tables, failing: set<Call>, cif: string, category: ScoreCategory, count: int, now: Time)
    ensures BadgeOutcome(t, failing, cif, category, count, now).1.scores == t.scores
    ensures BadgeOutcome(t, failing, cif, category, count, now).1.history == t.history
  {
  }

  /**
   * `handleBadges` only appends awards for this customer dated `now`; when it
   * succeeds it returns the badges it decided on and wrote one award for each.
   */
  lemma BadgeOutcomeAwards(t: Tables, failing: set<Call>, cif: string, category: ScoreCategory, count: int, now: Time)
    ensures var (r, t') := BadgeOutcome(t, failing, cif, category, count, now);
      && |t.awards| <= |t'.awards| && t'.awards[..|t.awards|] == t.awards
      && (forall k | |t.awards| <= k < |t'.awards| :: t'.awards[k].cif == cif && t'.awards[k].dateAwarded == now)
      && (r.Ok? ==> r.value == NewBadges(t, cif, category, count)
                    && t'.awards == t.awards + AwardRecords(cif, r.value, now))
  {
    var earned := EarnedBadges(t, cif, category, count);
    if BadgeGet(category.code) !in failing && earned != [] && BadgeGet(All.code) !in failing && HistoryGetAll !in failing {
      var badges := NewBadges(t, cif, category, count);
      WriteAwardsSpec(t.awards, failing, cif, badges, now);
      var (err, a) := WriteAwards(t.awards, failing, cif, badges, now);
      if err.None? {
        assert a[|t.awards|..] == AwardRecords(cif, badges, now);
        assert a == a[..|t.awards|] + a[|t.awards|..];
      }
    } else {
      assert t.awards + [] == t.awards;
    }
  }

  /** With no call failing, `handleBadges` returns the badges it decides on and records one award for each. */
  lemma BadgeOutcomeNoFailure(t: Tables, cif: string, category: ScoreCategory, count: int, now: Time)
    ensures BadgeOutcome(t, {}, cif, category, count, now)
      == (Ok(NewBadges(t, cif, category, count)),
          t.(awards := t.awards + AwardRecords(cif, NewBadges(t, cif, category, count), now)))
  {
    BadgeOutcomeAwards(t, {}, cif, category, count, now);
    BadgeOutcomeKeepsScoresAndHistory(t, {}, cif, category, count, now);
    WriteAwardsSpec(t.awards, {}, cif, NewBadges(t, cif, category, count), now);
  }

  /**
   * For a primary category, the badges `handleBadges` decides on are catalog
   * badges not yet awarded to the customer, with pairwise distinct codes.
   */
  lemma NewBadgesAreNew(t: Tables, cif: string, category: ScoreCategory, count: int)
    requires IsPrimary(category)
    ensures Unawarded(NewBadges(t, cif, category, count), t.awards, cif)
    ensures DistinctCodes(NewBadges(t, cif, category, count))
  {
    CategoryCatalog();
    var earned := EarnedBadges(t, cif, category, count);
    if earned != [] {
      var minScored := MinScored(RowsOf(t.history, cif));
      TierBadgesOrdered(category, count, BadgesOfCategory(t.awards, cif, category));
      TierBadgesOrdered(All, minScored, BadgesOfCategory(t.awards, cif, All));
      TierBadgesUnawarded(t.awards, cif, category, count);
      TierBadgesUnawarded(t.awards, cif, All, minScored);
      ConcatUnawarded(earned, AllTierBadges(t, cif), category, All, t.awards, cif);
    }
  }

  /**
   * The order of the badges `handleBadges` decides on: only the category's
   * and ALL's; the category's first, each group by ascending level.
   */
  lemma NewBadgesOrder(t: Tables, cif: string, category: ScoreCategory, count: int)
    requires IsPrimary(category)
    ensures var badges := NewBadges(t, cif, category, count);
      && (forall i | 0 <= i < |badges| :: badges[i].category == category || badges[i].category == All)
      && (forall i, j | 0 <= i < j < |badges| && badges[j].category == category :: badges[i].category == category)
      && (forall i, j | 0 <= i < j < |badges| && badges[i].category == badges[j].category :: badges[i].level < badges[j].level)
  {
    CategoryCatalog();
    var earned := EarnedBadges(t, cif, category, count);
    if earned != [] {
      TierBadgesOrdered(category, count, BadgesOfCategory(t.awards, cif, category));
      TierBadgesOrdered(All, MinScored(RowsOf(t.history, cif)), BadgesOfCategory(t.awards, cif, All));
      ConcatOrdered(earned, AllTierBadges(t, cif), category, All);
    }
  }

  /** The category tier is non-empty iff some level's threshold is reached and its badge is not yet awarded. */
  lemma EarnedIffSomeLevel(t: Tables, cif: string, category: ScoreCategory, count: int)
    requires IsPrimary(category)
    ensures EarnedBadges(t, cif, category, count) != [] <==>
      exists level :: 1 <= level <= 3 && count >= Threshold(level)
        && !Awarded(t.awards, cif, CatalogBadge(category, level).code)
  {
    CategoryCatalog();
    var owned := BadgesOfCategory(t.awards, cif, category);
    var earned := EarnedBadges(t, cif, category, count);
    if earned != [] {
      var b := earned[0];
      assert b in earned;
      TierBadgesMembers(category, count, owned, b);
      CatalogBadgeUnique(b);
      OwnsIffAwarded(t.awards, cif, category, b);
    }
    if exists level :: 1 <= level <= 3 && count >= Threshold(level)
         && !Awarded(t.awards, cif, CatalogBadge(category, level).code)
    {
      var level :| 1 <= level <= 3 && count >= Threshold(level)
        && !Awarded(t.awards, cif, CatalogBadge(category, level).code);
      CatalogBadgeSpec(category, level);
      var b := CatalogBadge(category, level);
      OwnsIffAwarded(t.awards, cif, category, b);
      TierBadgesMembers(category, count, owned, b);
    }
  }

  /**
   * A badge of the confirmed primary category is awarded iff the scoring count
   * reaches its level's threshold and the customer does not hold it yet.
   */
  lemma NewCategoryBadges(t: Tables, cif: string, category: ScoreCategory, count: int, b: BadgeType)
    requires IsPrimary(category)
    requires b in AllBadgeTypes && b.category == category
    ensures b in NewBadges(t, cif, category, count) <==> count >= Threshold(b.level) && !Awarded(t.awards, cif, b.code)
  {
    CategoryCatalog();
    var earned := EarnedBadges(t, cif, category, count);
    TierBadgesMembers(category, count, BadgesOfCategory(t.awards, cif, category), b);
    OwnsIffAwarded(t.awards, cif, category, b);
    if earned != [] {
      TierBadgesOrdered(All, MinScored(RowsOf(t.history, cif)), BadgesOfCategory(t.awards, cif, All));
      assert b !in AllTierBadges(t, cif);
    }
  }

  /**
   * An ALL badge is awarded iff a badge of the confirmed category is awarded
   * too, the customer has exactly four history rows, each scored at least the
   * badge's threshold, and the customer does not hold it yet.
   */
  lemma NewAllBadges(t: Tables, cif: string, category: ScoreCategory, count: int, b: BadgeType)
    requires IsPrimary(category)
    requires b in AllBadgeTypes && b.category == All
    ensures var rows := RowsOf(t.history, cif);
      b in NewBadges(t, cif, category, count) <==>
        && EarnedBadges(t, cif, category, count) != []
        && |rows| == 4 && (forall i | 0 <= i < |rows| :: rows[i].timesScored >= Threshold(b.level))
        && !Awarded(t.awards, cif, b.code)
  {
    CategoryCatalog();
    var rows := RowsOf(t.history, cif);
    var earned := EarnedBadges(t, cif, category, count);
    CatalogBadgeUnique(b);
    if earned != [] {
      TierBadgesOrdered(category, count, BadgesOfCategory(t.awards, cif, category));
      assert b !in earned;
      TierBadgesMembers(All, MinScored(rows), BadgesOfCategory(t.awards, cif, All), b);
      OwnsIffAwarded(t.awards, cif, All, b);
      MinScoredAtLeast(rows, Threshold(b.level));
    }
  }

  /** For a primary category, `handleBadges` never writes a badge the customer already holds or writes one twice. */
  lemma BadgeOutcomeKeepsDistinct(t: Tables, failing: set<Call>, cif: string, category: ScoreCategory, count: int, now: Time)
    requires IsPrimary(category)
    requires DistinctAwards(t.awards)
    ensures DistinctAwards(BadgeOutcome(t, failing, cif, category, count, now).1.awards)
  {
    BadgeOutcomeWrites(t, failing, cif, category, count, now);
    NewBadgesAreNew(t, cif, category, count);
    WriteAwardsKeepsDistinct(t.awards, failing, cif, NewBadges(t, cif, category, count), now);
  }

  /** The award table after `handleBadges`: as it was, or as the write loop leaves it. */
  lemma BadgeOutcomeWrites(t: Tables, failing: set<Call>, cif: string, category: ScoreCategory, count: int, now: Time)
    ensures var awards := BadgeOutcome(t, failing, cif, category, count, now).1.awards;
      awards == t.awards || awards == WriteAwards(t.awards, failing, cif, NewBadges(t, cif, category, count), now).1
  {
  }

  /**
   * The early return of `handleBadges`: when the category read succeeds and
   * yields no new category badge, it answers no badges and writes nothing,
   * without reading the ALL badges or the history, whatever else would fail.
   */
  lemma BadgeOutcomeNothingEarned(t: Tables, failing: set<Call>, cif: string, category: ScoreCategory, count: int, now: Time)
    requires BadgeGet(category.code) !in failing
    requires EarnedBadges(t, cif, category, count) == []
    ensures BadgeOutcome(t, failing, cif, category, count, now) == (Ok([]), t)
  {
  }

  // ---------------------------------------------------------------------
  // ConfirmCategory

  /** A failing read or history write ends the confirmation with that error and changes nothing. */
  lemma ReadFailureChangesNothing(t: Tables, failing: set<Call>, cif: string, category: ScoreCategory, now: Time, addMonth: MonthAdder)
    requires ScoreGet in failing || HistoryGet in failing || HistoryPut in failing
    ensures var (r, t') := ConfirmOutcome(t, failing, cif, category, now, addMonth);
      && t' == t
      && r == Err(if ScoreGet in failing then ScoreGet else if HistoryGet in failing then HistoryGet else HistoryPut)
  {
  }

  /**
   * A failing score write ends a scoring confirmation with that error before
   * any badge is decided: the confirmed row stays recorded, and the scores
   * and awards are as they were.
   */
  lemma ScoreWriteFailure(t: Tables, failing: set<Call>, cif: string, category: ScoreCategory, now: Time, addMonth: MonthAdder)
    requires ScoreGet !in failing && HistoryGet !in failing && HistoryPut !in failing && ScorePut in failing
    requires Eligible(CurrentRow(t.history, cif, category.code), now, addMonth)
    ensures ConfirmOutcome(t, failing, cif, category, now, addMonth)
      == (Err(ScorePut), t.(history := Upsert(t.history, Confirmed(CurrentRow(t.history, cif, category.code), now, addMonth))))
  {
  }

  /** Past the reads and the history write, a scoring confirmation hands `ScoredTables` to `handleBadges`. */
  lemma ScoringStep(t: Tables, failing: set<Call>, cif: string, category: ScoreCategory, now: Time, addMonth: MonthAdder)
    requires ScoreGet !in failing && HistoryGet !in failing && HistoryPut !in failing && ScorePut !in failing
    requires Eligible(CurrentRow(t.history, cif, category.code), now, addMonth)
    ensures var t2 := ScoredTables(t, cif, category, now, addMonth);
      var count := Confirmed(CurrentRow(t.history, cif, category.code), now, addMonth).timesScored;
      ConfirmOutcome(t, failing, cif, category, now, addMonth).1 == BadgeOutcome(t2, failing, cif, category, count, now).1
  {
  }

  /** The history table after a confirmation that gets past the reads and the history write. */
  lemma ConfirmationRecordedHistory(t: Tables, failing: set<Call>, cif: string, category: ScoreCategory, now: Time, addMonth: MonthAdder)
    requires ScoreGet !in failing && HistoryGet !in failing && HistoryPut !in failing
    ensures ConfirmOutcome(t, failing, cif, category, now, addMonth).1.history
      == Upsert(t.history, Confirmed(CurrentRow(t.history, cif, category.code), now, addMonth))
  {
    var row := CurrentRow(t.history, cif, category.code);
    if Eligible(row, now, addMonth) && ScorePut !in failing {
      var count := Confirmed(row, now, addMonth).timesScored;
      ScoringStep(t, failing, cif, category, now, addMonth);
      BadgeOutcomeKeepsScoresAndHistory(ScoredTables(t, cif, category, now, addMonth), failing, cif, category, count, now);
    }
  }

  /**
   * A confirmation that gets past the reads records itself: the row for
   * (cif, category) becomes the confirmed row, and no other key's row changes.
   */
  lemma ConfirmationRecorded(t: Tables, failing: set<Call>, cif: string, category: ScoreCategory, now: Time, addMonth: MonthAdder)
    requires ScoreGet !in failing && HistoryGet !in failing && HistoryPut !in failing
    ensures var t' := ConfirmOutcome(t, failing, cif, category, now, addMonth).1;
      var row := CurrentRow(t.history, cif, category.code);
      && FindHistory(t'.history, cif, category.code) == Some(Confirmed(row, now, addMonth))
      && (forall c, code | c != cif || code != category.code ::
            FindHistory(t'.history, c, code) == FindHistory(t.history, c, code))
  {
    var row' := Confirmed(CurrentRow(t.history, cif, category.code), now, addMonth);
    ConfirmationRecordedHistory(t, failing, cif, category, now, addMonth);
    FindAfterUpsert(t.history, row');
    forall c, code | c != cif || code != category.code
      ensures FindHistory(Upsert(t.history, row'), c, code) == FindHistory(t.history, c, code)
    {
      FindOtherAfterUpsert(t.history, row', c, code);
    }
  }

  /** Inside the cooldown a confirmation gains nothing: no points, no badges, score and awards unchanged. */
  lemma CooldownGainsNothing(t: Tables, failing: set<Call>, cif: string, category: ScoreCategory, now: Time, addMonth: MonthAdder)
    requires ScoreGet !in failing && HistoryGet !in failing && HistoryPut !in failing
    requires !Eligible(CurrentRow(t.history, cif, category.code), now, addMonth)
    ensures var (r, t') := ConfirmOutcome(t, failing, cif, category, now, addMonth);
      && r.Ok? && r.value.pointsGained == 0 && r.value.newBadges == []
      && r.value.nextPointsEligible == addMonth(CurrentRow(t.history, cif, category.code).lastScored)
      && r.value.nextPointsEligible >= now
      && t'.scores == t.scores && t'.awards == t.awards
  {
  }

  /**
   * Past the cooldown a confirmation adds 100 points to the customer's score,
   * starting from 0 for a customer without one, and changes no other score.
   */
  lemma ScoringAddsPoints(t: Tables, failing: set<Call>, cif: string, category: ScoreCategory, now: Time, addMonth: MonthAdder)
    requires ScoreGet !in failing && HistoryGet !in failing && HistoryPut !in failing && ScorePut !in failing
    requires Eligible(CurrentRow(t.history, cif, category.code), now, addMonth)
    ensures ConfirmOutcome(t, failing, cif, category, now, addMonth).1.scores
      == t.scores[cif := StoredScore(t.scores, cif) + PointsPerScoring]
  {
    var count := Confirmed(CurrentRow(t.history, cif, category.code), now, addMonth).timesScored;
    var t2 := ScoredTables(t, cif, category, now, addMonth);
    assert t2.scores == t.scores[cif := StoredScore(t.scores, cif) + PointsPerScoring];
    ScoringStep(t, failing, cif, category, now, addMonth);
    BadgeOutcomeKeepsScoresAndHistory(t2, failing, cif, category, count, now);
  }

  /** A successful scoring confirmation answers 100 points and a next eligible time one month after `now`. */
  lemma ScoringAnswer(t: Tables, failing: set<Call>, cif: string, category: ScoreCategory, now: Time, addMonth: MonthAdder)
    requires ScoreGet !in failing && HistoryGet !in failing && HistoryPut !in failing && ScorePut !in failing
    requires Eligible(CurrentRow(t.history, cif, category.code), now, addMonth)
    ensures var r := ConfirmOutcome(t, failing, cif, category, now, addMonth).0;
      r.Ok? ==> r.value.pointsGained == PointsPerScoring
                && r.value.nextPointsEligible == addMonth(now) && now < r.value.nextPointsEligible
  {
  }

  /**
   * With nothing failing, a scoring confirmation answers 100 points, the next
   * eligible time and the badges `handleBadges` decides on, and stores the
   * scored tables plus one award per badge.
   */
  lemma ScoringNoFailure(t: Tables, cif: string, category: ScoreCategory, now: Time, addMonth: MonthAdder)
    requires Eligible(CurrentRow(t.history, cif, category.code), now, addMonth)
    ensures var t2 := ScoredTables(t, cif, category, now, addMonth);
      var badges := NewBadges(t2, cif, category, Confirmed(CurrentRow(t.history, cif, category.code), now, addMonth).timesScored);
      ConfirmOutcome(t, {}, cif, category, now, addMonth)
        == (Ok(ConfirmationResponse(PointsPerScoring, addMonth(now), badges)),
            t2.(awards := t.awards + AwardRecords(cif, badges, now)))
  {
    var t2 := ScoredTables(t, cif, category, now, addMonth);
    var count := Confirmed(CurrentRow(t.history, cif, category.code), now, addMonth).timesScored;
    ScoringStep(t, {}, cif, category, now, addMonth);
    BadgeOutcomeNoFailure(t2, cif, category, count, now);
  }

  /**
   * The cooldown: after a successful confirmation, the next confirmation of the
   * same category scores iff it comes after the `nextPointsEligible` answered.
   */
  lemma CooldownRespected(t: Tables, failing: set<Call>, cif: string, category: ScoreCategory, now: Time, later: Time, addMonth: MonthAdder)
    requires ScoreGet !in failing && HistoryGet !in failing && HistoryPut !in failing
    ensures var (r1, t1) := ConfirmOutcome(t, failing, cif, category, now, addMonth);
      var (r2, t2) := ConfirmOutcome(t1, failing, cif, category, later, addMonth);
      r1.Ok? ==>
        && (Eligible(CurrentRow(t1.history, cif, category.code), later, addMonth) <==> r1.value.nextPointsEligible < later)
        && (r2.Ok? ==> (r2.value.pointsGained == PointsPerScoring <==> r1.value.nextPointsEligible < later))
        && (r2.Ok? ==> (r2.value.pointsGained == 0 <==> later <= r1.value.nextPointsEligible))
  {
    ConfirmationRecorded(t, failing, cif, category, now, addMonth);
    var t1 := ConfirmOutcome(t, failing, cif, category, now, addMonth).1;
    assert CurrentRow(t1.history, cif, category.code) == Confirmed(CurrentRow(t.history, cif, category.code), now, addMonth);
  }

  /** No confirmation lowers a score: every stored score stays or grows. */
  lemma ScoresNeverDecrease(t: Tables, failing: set<Call>, cif: string, category: ScoreCategory, now: Time, addMonth: MonthAdder)
    ensures var t' := ConfirmOutcome(t, failing, cif, category, now, addMonth).1;
      forall c | c in t.scores :: c in t'.scores && t'.scores[c] >= t.scores[c]
  {
    var row := CurrentRow(t.history, cif, category.code);
    if ScoreGet !in failing && HistoryGet !in failing && HistoryPut !in failing && Eligible(row, now, addMonth) && ScorePut !in failing {
      ScoringAddsPoints(t, failing, cif, category, now, addMonth);
    }
  }

  /** The award table only gains rows, each for this customer and dated `now`. */
  lemma AwardsOnlyAppended(t: Tables, failing: set<Call>, cif: string, category: ScoreCategory, now: Time, addMonth: MonthAdder)
    ensures var t' := ConfirmOutcome(t, failing, cif, category, now, addMonth).1;
      && |t.awards| <= |t'.awards| && t'.awards[..|t.awards|] == t.awards
      && (forall k | |t.awards| <= k < |t'.awards| :: t'.awards[k].cif == cif && t'.awards[k].dateAwarded == now)
  {
    var row := CurrentRow(t.history, cif, category.code);
    if ScoreGet !in failing && HistoryGet !in failing && HistoryPut !in failing && Eligible(row, now, addMonth) && ScorePut !in failing {
      var count := Confirmed(row, now, addMonth).timesScored;
      ScoringStep(t, failing, cif, category, now, addMonth);
      BadgeOutcomeAwards(ScoredTables(t, cif, category, now, addMonth), failing, cif, category, count, now);
    }
  }

  /** Confirmations keep the history table valid: one row per key, never scored more often than confirmed. */
  lemma HistoryStaysValid(t: Tables, failing: set<Call>, cif: string, category: ScoreCategory, now: Time, addMonth: MonthAdder)
    requires ValidHistory(t.history)
    ensures ValidHistory(ConfirmOutcome(t, failing, cif, category, now, addMonth).1.history)
  {
    if ScoreGet !in failing && HistoryGet !in failing && HistoryPut !in failing {
      var row := CurrentRow(t.history, cif, category.code);
      var row' := Confirmed(row, now, addMonth);
      assert 0 <= row.timesScored <= row.timesConfirmed by {
        if FindHistory(t.history, cif, category.code).Some? {
          var k :| 0 <= k < |t.history| && t.history[k] == row;
        }
      }
      var rows := Upsert(t.history, row');
      UpsertKeepsUniqueKeys(t.history, row');
      UpsertRows(t.history, row');
      forall i | 0 <= i < |rows|
        ensures 0 <= rows[i].timesScored <= rows[i].timesConfirmed
      {
        assert rows[i] in rows;
        if rows[i] != row' {
          var k :| 0 <= k < |t.history| && t.history[k] == rows[i];
        }
      }
      ConfirmationRecordedHistory(t, failing, cif, category, now, addMonth);
    }
  }

  /**
   * Confirming a primary category never gives a customer the same badge twice,
   * even when a badge write fails part-way.
   */
  lemma NoDuplicateAwards(t: Tables, failing: set<Call>, cif: string, category: ScoreCategory, now: Time, addMonth: MonthAdder)
    requires IsPrimary(category)
    requires DistinctAwards(t.awards)
    ensures DistinctAwards(ConfirmOutcome(t, failing, cif, category, now, addMonth).1.awards)
  {
    var row := CurrentRow(t.history, cif, category.code);
    if ScoreGet !in failing && HistoryGet !in failing && HistoryPut !in failing && Eligible(row, now, addMonth) && ScorePut !in failing {
      var count := Confirmed(row, now, addMonth).timesScored;
      ScoringStep(t, failing, cif, category, now, addMonth);
      BadgeOutcomeKeepsDistinct(ScoredTables(t, cif, category, now, addMonth), failing, cif, category, count, now);
    }
  }

  /**
   * A customer without history rows starts from a zeroed row: the first
   * confirmation scores once and leaves exactly that one row for the customer.
   */
  lemma FirstRow(t: Tables, cif: string, category: ScoreCategory, now: Time, addMonth: MonthAdder)
    requires RowsOf(t.history, cif) == []
    requires addMonth(ZeroTime) < now
    ensures var row' := Confirmed(CurrentRow(t.history, cif, category.code), now, addMonth);
      && Eligible(CurrentRow(t.history, cif, category.code), now, addMonth)
      && row'.timesScored == 1 && row'.lastScored == now
      && RowsOf(ScoredTables(t, cif, category, now, addMonth).history, cif) == [row']
  {
    assert FindHistory(t.history, cif, category.code) == None by {
      forall i | 0 <= i < |t.history| ensures !HasKey(t.history[i], cif, category.code) {
        if t.history[i].cif == cif {
          RowsOfHas(t.history, cif, i);
        }
      }
    }
    var row' := Confirmed(CurrentRow(t.history, cif, category.code), now, addMonth);
    RowsOfAfterUpsert(t.history, row');
  }

  /**
   * A customer without awards and with a single history row, scored once in a
   * primary category, earns exactly the category's level-1 badge.
   */
  lemma FirstBadges(t: Tables, cif: string, category: ScoreCategory)
    requires IsPrimary(category)
    requires |RowsOf(t.history, cif)| == 1
    requires forall a | a in t.awards :: a.cif != cif
    ensures NewBadges(t, cif, category, 1) == [CatalogBadge(category, 1)]
  {
    CategoryCatalog();
    assert AwardsOf(t.awards, cif) == [] by {
      if AwardsOf(t.awards, cif) != [] {
        assert AwardsOf(t.awards, cif)[0] in AwardsOf(t.awards, cif);
      }
    }
    var badge := CatalogBadge(category, 1);
    assert !Owns([], badge);
    assert EarnedBadges(t, cif, category, 1) == [badge];
    assert AllTierBadges(t, cif) == [];
  }

  /**
   * A new customer's first confirmation of a primary category, with nothing
   * failing: 100 points, the next eligible time one month on, and exactly the
   * category's level-1 badge, written once.
   */
  lemma FirstConfirmation(t: Tables, cif: string, category: ScoreCategory, now: Time, addMonth: MonthAdder)
    requires IsPrimary(category)
    requires RowsOf(t.history, cif) == []
    requires forall a | a in t.awards :: a.cif != cif
    requires addMonth(ZeroTime) < now
    ensures ConfirmOutcome(t, {}, cif, category, now, addMonth)
      == (Ok(ConfirmationResponse(PointsPerScoring, addMonth(now), [CatalogBadge(category, 1)])),
          ScoredTables(t, cif, category, now, addMonth).(awards := t.awards + [BadgeAward(CatalogBadge(category, 1).code, cif, now)]))
  {
    var t2 := ScoredTables(t, cif, category, now, addMonth);
    FirstRow(t, cif, category, now, addMonth);
    FirstBadges(t2, cif, category);
    ScoringNoFailure(t, cif, category, now, addMonth);
    var badge := CatalogBadge(category, 1);
    assert AwardRecords(cif, [badge], now) == [BadgeAward(badge.code, cif, now)];
  }

  /** A row of the customer is listed by GetAll. */
  lemma {:induction false} RowsOfHas(rows: seq<HistoryRecord>, cif: string, i: int)
    requires 0 <= i < |rows| && rows[i].cif == cif
    ensures RowsOf(rows, cif) != []
  {
    if i > 0 {
      RowsOfHas(rows[1..], cif, i - 1);
    }
  }
}
