/**
 * The user score endpoint: the customer's score, their place on the
 * leaderboard, their per-category history and their badges, assembled from
 * four store reads.
 */
module UserScore {
  import opened Wrappers
  import opened Categories
  import opened Repositories
  import opened Badges

  datatype UserCategoryScore = UserCategoryScore(
    category: ScoreCategory,
    lastConfirmed: Time,
    lastScored: Time,
    confirmationCount: int,
    scoreCount: int)

  datatype UserScoreResponse = UserScoreResponse(
    cif: string,
    score: int,
    position: int,
    isJointPosition: bool,
    pointsBehindNext: int,
    categories: seq<UserCategoryScore>,
    badges: seq<BadgeType>)

  /** How many of the listed scores are strictly greater than `s`. */
  function CountAbove(scores: seq<int>, s: int): nat
  {
    if scores == [] then 0
    else CountAbove(scores[..|scores| - 1], s) + (if scores[|scores| - 1] > s then 1 else 0)
  }

  /** How many of the listed scores are equal to `s`. */
  function CountEqual(scores: seq<int>, s: int): nat
  {
    if scores == [] then 0
    else CountEqual(scores[..|scores| - 1], s) + (if scores[|scores| - 1] == s then 1 else 0)
  }

  /** The response entry built from one history row; an unknown code gives the zero category. */
  function CategoryEntry(row: HistoryRecord): UserCategoryScore
  {
    UserCategoryScore(LookupCategory(row.categoryCode), row.lastConfirmed, row.lastScored,
                      row.timesConfirmed, row.timesScored)
  }

  function CategoryEntries(rows: seq<HistoryRecord>): seq<UserCategoryScore>
  {
    seq(|rows|, i requires 0 <= i < |rows| => CategoryEntry(rows[i]))
  }

  /** The badge listed for each award; an unknown code gives the zero badge. */
  function BadgeEntries(awards: seq<BadgeAward>): seq<BadgeType>
  {
    seq(|awards|, i requires 0 <= i < |awards| => LookupBadgeType(awards[i].badgeCode))
  }

  /**
   * What `GetScore` answers once the caller is authenticated: the first failing
   * read in the order score, all scores, category history, badges; otherwise
   * the assembled response. `allScores` is what the all-scores read returns.
   */
  function ScoreResponse(t: Tables, failing: set<Call>, allScores: seq<int>, cif: string)
    : Result<UserScoreResponse, Call>
  {
    if ScoreGet in failing then Err(ScoreGet)
    else if ScoreGetAll in failing then Err(ScoreGetAll)
    else if HistoryGetAll in failing then Err(HistoryGetAll)
    else if BadgeGet("") in failing then Err(BadgeGet(""))
    else
      var score := ScoreLookup(t.scores, cif).0.score;
      Ok(UserScoreResponse(cif, score, 1 + CountAbove(allScores, score), CountEqual(allScores, score) > 1, 0,
                           CategoryEntries(RowsOf(t.history, cif)), BadgeEntries(AwardsOf(t.awards, cif))))
  }

  /**
   * The ranking loop: the position starts at 1 and moves down one place per
   * strictly greater score; the joint flag is rewritten at every equal score.
   */
  method Rank(allScores: seq<int>, score: int) returns (position: int, isJoint: bool)
    ensures position == 1 + CountAbove(allScores, score)
    ensures isJoint <==> CountEqual(allScores, score) > 1
  {
    position := 1;
    isJoint := false;
    var joints := 0;
    var i := 0;
    while i < |allScores|
      invariant 0 <= i <= |allScores|
      invariant position == 1 + CountAbove(allScores[..i], score)
      invariant joints == CountEqual(allScores[..i], score)
      invariant isJoint <==> joints > 1
    {
      var s := allScores[i];
      assert allScores[..i + 1][..i] == allScores[..i];
      if s > score {
        position := position + 1;
      } else if s == score {
        joints := joints + 1;
        isJoint := joints > 1;
      }
      i := i + 1;
    }
    assert allScores[..i] == allScores;
  }

  method ListCategories(rows: seq<HistoryRecord>) returns (categories: seq<UserCategoryScore>)
    ensures categories == CategoryEntries(rows)
  {
    categories := [];
    var i := 0;
    while i < |rows|
      invariant 0 <= i <= |rows|
      invariant |categories| == i
      invariant forall j | 0 <= j < i :: categories[j] == CategoryEntry(rows[j])
    {
      var row := rows[i];
      categories := categories + [UserCategoryScore(LookupCategory(row.categoryCode), row.lastConfirmed,
                                                    row.lastScored, row.timesConfirmed, row.timesScored)];
      i := i + 1;
    }
  }

  method ListBadges(awards: seq<BadgeAward>) returns (badges: seq<BadgeType>)
    ensures badges == BadgeEntries(awards)
  {
    badges := [];
    var i := 0;
    while i < |awards|
      invariant 0 <= i <= |awards|
      invariant |badges| == i
      invariant forall j | 0 <= j < i :: badges[j] == LookupBadgeType(awards[j].badgeCode)
    {
      badges := badges + [LookupBadgeType(awards[i].badgeCode)];
      i := i + 1;
    }
  }

  /** The handler body after authentication: four reads, then the three loops. */
  method GetScore(t: Tables, failing: set<Call>, allScores: seq<int>, cif: string)
    returns (r: Result<UserScoreResponse, Call>)
    ensures r == ScoreResponse(t, failing, allScores, cif)
  {
    if ScoreGet in failing { return Err(ScoreGet); }
    var (record, _) := ScoreLookup(t.scores, cif);
    if ScoreGetAll in failing { return Err(ScoreGetAll); }
    if HistoryGetAll in failing { return Err(HistoryGetAll); }
    var allCategories := RowsOf(t.history, cif);
    if BadgeGet("") in failing { return Err(BadgeGet("")); }
    var allBadges := AwardsOf(t.awards, cif);

    var categories := ListCategories(allCategories);
    var badges := ListBadges(allBadges);
    var position, isJoint := Rank(allScores, record.score);
    r := Ok(UserScoreResponse(cif, record.score, position, isJoint, 0, categories, badges));
  }

  // Properties of the ranking.

  /** Counting over a concatenation adds the counts of the parts. */
  lemma {:induction false} CountAboveAppend(a: seq<int>, b: seq<int>, s: int)
    ensures CountAbove(a + b, s) == CountAbove(a, s) + CountAbove(b, s)
  {
    if b != [] {
      var b' := b[..|b| - 1];
      assert (a + b)[..|a + b| - 1] == a + b';
      CountAboveAppend(a, b', s);
    } else {
      assert a + b == a;
    }
  }

  /** The number of equal scores is the multiplicity of `s` among the scores. */
  lemma {:induction false} CountEqualIsMultiplicity(scores: seq<int>, s: int)
    ensures CountEqual(scores, s) == multiset(scores)[s]
  {
    if scores != [] {
      var init := scores[..|scores| - 1];
      assert scores == init + [scores[|scores| - 1]];
      CountEqualIsMultiplicity(init, s);
    }
  }

  /** The number of greater scores is the number of positions holding a greater score. */
  lemma {:induction false} CountAboveIsCardinality(scores: seq<int>, s: int)
    ensures CountAbove(scores, s) == |set i | 0 <= i < |scores| && scores[i] > s|
  {
    if scores != [] {
      var n := |scores| - 1;
      var init := scores[..n];
      CountAboveIsCardinality(init, s);
      var above := set i | 0 <= i < |scores| && scores[i] > s;
      var above' := set i | 0 <= i < |init| && init[i] > s;
      assert above' == set i | 0 <= i < n && scores[i] > s;
      if scores[n] > s {
        assert above == above' + {n};
      } else {
        assert above == above';
      }
    }
  }

  /** A greater, equal or smaller score accounts for every entry. */
  lemma {:induction false} CountsBounded(scores: seq<int>, s: int)
    ensures CountAbove(scores, s) + CountEqual(scores, s) <= |scores|
  {
    if scores != [] {
      CountsBounded(scores[..|scores| - 1], s);
    }
  }

  /** A higher score never ranks below a lower one. */
  lemma {:induction false} CountAboveMonotone(scores: seq<int>, lo: int, hi: int)
    requires lo <= hi
    ensures CountAbove(scores, hi) <= CountAbove(scores, lo)
  {
    if scores != [] {
      CountAboveMonotone(scores[..|scores| - 1], lo, hi);
    }
  }

  /** Nobody is ahead exactly when no listed score is greater. */
  lemma {:induction false} TopIffNoneGreater(scores: seq<int>, s: int)
    ensures CountAbove(scores, s) == 0 <==> forall i | 0 <= i < |scores| :: scores[i] <= s
  {
    if scores != [] {
      var init := scores[..|scores| - 1];
      TopIffNoneGreater(init, s);
      assert forall i | 0 <= i < |init| :: init[i] == scores[i];
    }
  }

  /** Taking out one entry takes out its count and its multiplicity. */
  lemma RemoveEntry(ys: seq<int>, k: int, s: int)
    requires 0 <= k < |ys|
    ensures multiset(ys[..k] + ys[k + 1..]) == multiset(ys) - multiset{ys[k]}
    ensures CountAbove(ys, s) == CountAbove(ys[..k] + ys[k + 1..], s) + (if ys[k] > s then 1 else 0)
  {
    var x := ys[k];
    assert ys == ys[..k] + ([x] + ys[k + 1..]);
    CountAboveAppend(ys[..k], [x] + ys[k + 1..], s);
    CountAboveAppend([x], ys[k + 1..], s);
    CountAboveAppend(ys[..k], ys[k + 1..], s);
    assert [x][..0] == [];
  }

  /** The rank does not depend on the order in which the scores are listed. */
  lemma {:induction false} RankIgnoresOrder(xs: seq<int>, ys: seq<int>, s: int)
    requires multiset(xs) == multiset(ys)
    ensures CountAbove(xs, s) == CountAbove(ys, s)
    ensures CountEqual(xs, s) == CountEqual(ys, s)
    decreases |xs|
  {
    CountEqualIsMultiplicity(xs, s);
    CountEqualIsMultiplicity(ys, s);
    if xs != [] {
      var n := |xs| - 1;
      var x := xs[n];
      assert xs[..n] + [x] == xs;
      assert multiset(xs[..n]) == multiset(xs) - multiset{x};
      assert x in multiset(ys);
      var k :| 0 <= k < |ys| && ys[k] == x;
      RemoveEntry(ys, k, s);
      RankIgnoresOrder(xs[..n], ys[..k] + ys[k + 1..], s);
    }
  }

  /**
   * When the customer's own score is entry `k`, the position is joint exactly
   * when some other entry has the same score.
   */
  lemma JointIffTie(scores: seq<int>, s: int, k: int)
    requires 0 <= k < |scores| && scores[k] == s
    ensures CountEqual(scores, s) > 1 <==> exists j :: 0 <= j < |scores| && j != k && scores[j] == s
  {
    CountEqualIsMultiplicity(scores, s);
    var rest := scores[..k] + scores[k + 1..];
    assert scores == scores[..k] + [s] + scores[k + 1..];
    assert multiset(scores) == multiset(rest) + multiset{s};
    if exists j :: 0 <= j < |scores| && j != k && scores[j] == s {
      var j :| 0 <= j < |scores| && j != k && scores[j] == s;
      if j < k {
        assert rest[j] == s;
      } else {
        assert rest[j - 1] == s;
      }
      assert s in multiset(rest);
    }
    if multiset(rest)[s] > 0 {
      assert s in rest;
      var m :| 0 <= m < |rest| && rest[m] == s;
      if m < k {
        assert scores[m] == s;
      } else {
        assert scores[m + 1] == s;
      }
    }
  }

  // Properties of the response.

  /** A failing read is reported, and the earlier reads take precedence. */
  lemma ResponseErrors(t: Tables, failing: set<Call>, allScores: seq<int>, cif: string)
    ensures ScoreResponse(t, failing, allScores, cif).Err? <==>
      ScoreGet in failing || ScoreGetAll in failing || HistoryGetAll in failing || BadgeGet("") in failing
    ensures ScoreGet in failing ==> ScoreResponse(t, failing, allScores, cif) == Err(ScoreGet)
    ensures ScoreGet !in failing && ScoreGetAll in failing ==>
      ScoreResponse(t, failing, allScores, cif) == Err(ScoreGetAll)
  {
  }

  /**
   * A successful response: the stored score (0 without a record), a position
   * between 1 and one past the number of listed scores, one place per strictly
   * greater score, joint exactly when the score is listed more than once, and
   * nothing behind the next place.
   */
  lemma ResponseRanking(t: Tables, failing: set<Call>, allScores: seq<int>, cif: string)
    requires ScoreResponse(t, failing, allScores, cif).Ok?
    ensures var r := ScoreResponse(t, failing, allScores, cif).value;
      && r.cif == cif
      && r.score == (if cif in t.scores then t.scores[cif] else 0)
      && 1 <= r.position <= 1 + |allScores|
      && r.position - 1 == |set i | 0 <= i < |allScores| && allScores[i] > r.score|
      && (r.position == 1 <==> forall i | 0 <= i < |allScores| :: allScores[i] <= r.score)
      && (r.isJointPosition <==> multiset(allScores)[r.score] > 1)
      && r.pointsBehindNext == 0
  {
    var score := ScoreLookup(t.scores, cif).0.score;
    CountsBounded(allScores, score);
    CountAboveIsCardinality(allScores, score);
    TopIffNoneGreater(allScores, score);
    CountEqualIsMultiplicity(allScores, score);
  }

  /**
   * A successful response lists one category entry per history row of the
   * customer, in the rows' order, and one badge per award, in the awards' order.
   */
  lemma ResponseListings(t: Tables, failing: set<Call>, allScores: seq<int>, cif: string)
    requires ScoreResponse(t, failing, allScores, cif).Ok?
    ensures var r := ScoreResponse(t, failing, allScores, cif).value;
      var rows := RowsOf(t.history, cif);
      var awards := AwardsOf(t.awards, cif);
      && |r.categories| == |rows|
      && (forall i | 0 <= i < |rows| ::
            && r.categories[i].lastConfirmed == rows[i].lastConfirmed
            && r.categories[i].lastScored == rows[i].lastScored
            && r.categories[i].confirmationCount == rows[i].timesConfirmed
            && r.categories[i].scoreCount == rows[i].timesScored
            && (rows[i].categoryCode in ScoreCategoryLookup ==>
                  r.categories[i].category in AllScoreCategories
                  && r.categories[i].category.code == rows[i].categoryCode)
            && (rows[i].categoryCode !in ScoreCategoryLookup ==> r.categories[i].category == NoCategory))
      && |r.badges| == |awards|
      && (forall i | 0 <= i < |awards| ::
            && (awards[i].badgeCode in BadgeTypeLookup ==>
                  r.badges[i] in AllBadgeTypes && r.badges[i].code == awards[i].badgeCode)
            && (awards[i].badgeCode !in BadgeTypeLookup ==> r.badges[i] == NoBadge))
  {
  }

  /** Listing the same scores in another order gives the same place and the same joint flag. */
  lemma ResponseIgnoresScanOrder(t: Tables, failing: set<Call>, xs: seq<int>, ys: seq<int>, cif: string)
    requires multiset(xs) == multiset(ys)
    ensures ScoreResponse(t, failing, xs, cif) == ScoreResponse(t, failing, ys, cif)
  {
    RankIgnoresOrder(xs, ys, ScoreLookup(t.scores, cif).0.score);
  }
}
