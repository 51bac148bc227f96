/**
 * What the badge decisions of `handleBadges` mean: which catalog badges a
 * tier block yields, when the ALL tier applies, and what the write loop leaves
 * in the award table.
 */
module BadgeRules {
  import opened Wrappers
  import opened Lookups
  import opened Categories
  import opened Repositories
  import opened Badges
  import opened Confirmation

  /** The customer holds an award with that badge code. */
  predicate Awarded(awards: seq<BadgeAward>, cif: string, code: string)
  {
    exists a :: a in awards && a.cif == cif && a.badgeCode == code
  }

  /** No customer holds two awards with the same code. */
  predicate DistinctAwards(awards: seq<BadgeAward>)
  {
    forall i, j | 0 <= i < j < |awards| && awards[i].cif == awards[j].cif ::
      awards[i].badgeCode != awards[j].badgeCode
  }

  /** Two different catalog badges never share a code. */
  lemma CatalogCodesDistinct(b1: BadgeType, b2: BadgeType)
    requires b1 in AllBadgeTypes && b2 in AllBadgeTypes && b1 != b2
    ensures b1.code != b2.code
  {
    BadgeCatalog();
    var i :| 0 <= i < |AllBadgeTypes| && AllBadgeTypes[i] == b1;
    var j :| 0 <= j < |AllBadgeTypes| && AllBadgeTypes[j] == b2;
    if i < j {
      assert BadgeCode(AllBadgeTypes[i]) != BadgeCode(AllBadgeTypes[j]);
    } else {
      assert BadgeCode(AllBadgeTypes[j]) != BadgeCode(AllBadgeTypes[i]);
    }
  }

  /** Every catalog badge is the one `GetBadgeType` finds for its own category and level. */
  lemma CatalogBadgeUnique(b: BadgeType)
    requires b in AllBadgeTypes
    ensures b.category in AllScoreCategories && 1 <= b.level <= 3
    ensures CatalogBadge(b.category, b.level) == b
  {
    BadgeCatalog();
    var i :| 0 <= i < |AllBadgeTypes| && AllBadgeTypes[i] == b;
    CatalogBadgeSpec(b.category, b.level);
  }

  /**
   * `hasBadge` over the badges read for a category agrees with the award table:
   * a catalog badge of that category is owned iff the customer has an award with its code.
   */
  lemma OwnsIffAwarded(awards: seq<BadgeAward>, cif: string, cat: ScoreCategory, b: BadgeType)
    requires b in AllBadgeTypes && b.category == cat
    ensures Owns(BadgesOfCategory(awards, cif, cat), b) <==> Awarded(awards, cif, b.code)
  {
    var owned := BadgesOfCategory(awards, cif, cat);
    OwnedIffAwarded(awards, cif, cat, b);
    BadgesOfCategoryInCategory(awards, cif, cat);
    if Owns(owned, b) {
      var i :| 0 <= i < |owned| && owned[i].code == b.code;
      assert owned[i] in owned;
      if owned[i] != b {
        CatalogCodesDistinct(owned[i], b);
      }
    }
    if Awarded(awards, cif, b.code) {
      var i :| 0 <= i < |owned| && owned[i] == b;
    }
  }

  /**
   * A tier block yields exactly the catalog badges of the category whose
   * threshold the count reaches and that are not owned yet.
   */
  lemma TierBadgesMembers(cat: ScoreCategory, count: int, owned: seq<BadgeType>, b: BadgeType)
    requires cat in AllScoreCategories
    ensures b in TierBadges(cat, count, owned) <==>
      b in AllBadgeTypes && b.category == cat && count >= Threshold(b.level) && !Owns(owned, b)
  {
    CatalogBadgeSpec(cat, 1);
    CatalogBadgeSpec(cat, 2);
    CatalogBadgeSpec(cat, 3);
    var t1, t2, t3 := Tier(cat, 1, count, owned), Tier(cat, 2, count, owned), Tier(cat, 3, count, owned);
    assert b in TierBadges(cat, count, owned) <==> b in t1 || b in t2 || b in t3;
    if b in AllBadgeTypes && b.category == cat {
      CatalogBadgeUnique(b);
      if b.level == 1 {
        assert b in TierBadges(cat, count, owned) <==> b in t1;
      } else if b.level == 2 {
        assert b in TierBadges(cat, count, owned) <==> b in t2;
      } else {
        assert b in TierBadges(cat, count, owned) <==> b in t3;
      }
    }
  }

  /** Badges of one category, by strictly ascending level. */
  predicate LevelOrdered(bs: seq<BadgeType>, cat: ScoreCategory)
  {
    && (forall i | 0 <= i < |bs| :: bs[i].category == cat)
    && (forall i, j | 0 <= i < j < |bs| :: bs[i].level < bs[j].level)
  }

  /** Catalog badges the customer does not hold yet. */
  predicate Unawarded(bs: seq<BadgeType>, awards: seq<BadgeAward>, cif: string)
  {
    forall i | 0 <= i < |bs| :: bs[i] in AllBadgeTypes && !Awarded(awards, cif, bs[i].code)
  }

  /** No two badges of the list share a code. */
  predicate DistinctCodes(bs: seq<BadgeType>)
  {
    forall i, j | 0 <= i < j < |bs| :: bs[i].code != bs[j].code
  }

  /** A tier block lists its badges level by level, each of the block's category. */
  lemma TierBadgesOrdered(cat: ScoreCategory, count: int, owned: seq<BadgeType>)
    requires cat in AllScoreCategories
    ensures var tb := TierBadges(cat, count, owned);
      && |tb| <= 3
      && (forall i | 0 <= i < |tb| :: tb[i] in AllBadgeTypes)
      && LevelOrdered(tb, cat)
  {
    CatalogBadgeSpec(cat, 1);
    CatalogBadgeSpec(cat, 2);
    CatalogBadgeSpec(cat, 3);
    var t1 := Tier(cat, 1, count, owned);
    var t12 := t1 + Tier(cat, 2, count, owned);
    AppendTier([], cat, 1, count, owned);
    assert [] + t1 == t1;
    AppendTier(t1, cat, 2, count, owned);
    AppendTier(t12, cat, 3, count, owned);
  }

  /** Appending the `level` tier to a block of lower levels keeps it level-ordered. */
  lemma AppendTier(s: seq<BadgeType>, cat: ScoreCategory, level: int, count: int, owned: seq<BadgeType>)
    requires cat in AllScoreCategories && 1 <= level <= 3
    requires LevelOrdered(s, cat) && |s| < level
    requires forall i | 0 <= i < |s| :: s[i] in AllBadgeTypes && s[i].level < level
    ensures var s' := s + Tier(cat, level, count, owned);
      && LevelOrdered(s', cat) && |s'| <= level
      && (forall i | 0 <= i < |s'| :: s'[i] in AllBadgeTypes && s'[i].level <= level)
  {
    CatalogBadgeSpec(cat, level);
  }

  /** A tier block over the badges read for its category yields only badges the customer does not hold. */
  lemma TierBadgesUnawarded(awards: seq<BadgeAward>, cif: string, cat: ScoreCategory, count: int)
    requires cat in AllScoreCategories
    ensures Unawarded(TierBadges(cat, count, BadgesOfCategory(awards, cif, cat)), awards, cif)
  {
    var owned := BadgesOfCategory(awards, cif, cat);
    var tb := TierBadges(cat, count, owned);
    forall i | 0 <= i < |tb| ensures tb[i] in AllBadgeTypes && !Awarded(awards, cif, tb[i].code) {
      assert tb[i] in tb;
      TierBadgesMembers(cat, count, owned, tb[i]);
      OwnsIffAwarded(awards, cif, cat, tb[i]);
    }
  }

  /**
   * Two level-ordered blocks of different categories, one after the other: only
   * those two categories, the first block's before the second's, levels
   * ascending within each.
   */
  lemma ConcatOrdered(a: seq<BadgeType>, b: seq<BadgeType>, ca: ScoreCategory, cb: ScoreCategory)
    requires ca != cb && LevelOrdered(a, ca) && LevelOrdered(b, cb)
    ensures var s := a + b;
      && (forall i | 0 <= i < |s| :: s[i].category == ca || s[i].category == cb)
      && (forall i, j | 0 <= i < j < |s| && s[j].category == ca :: s[i].category == ca)
      && (forall i, j | 0 <= i < j < |s| && s[i].category == s[j].category :: s[i].level < s[j].level)
  {
    var s := a + b;
    forall i, j | 0 <= i < j < |s| && s[i].category == s[j].category
      ensures s[i].level < s[j].level
    {
      if |a| <= i {
        assert s[i] == b[i - |a|] && s[j] == b[j - |a|];
      } else if j < |a| {
        assert s[i] == a[i] && s[j] == a[j];
      }
    }
  }

  /** Two blocks of new catalog badges of different categories together hold new badges with distinct codes. */
  lemma ConcatUnawarded(a: seq<BadgeType>, b: seq<BadgeType>, ca: ScoreCategory, cb: ScoreCategory, awards: seq<BadgeAward>, cif: string)
    requires ca != cb && LevelOrdered(a, ca) && LevelOrdered(b, cb)
    requires Unawarded(a, awards, cif) && Unawarded(b, awards, cif)
    ensures Unawarded(a + b, awards, cif)
    ensures DistinctCodes(a + b)
  {
    var s := a + b;
    forall i | 0 <= i < |s| ensures s[i] in AllBadgeTypes && !Awarded(awards, cif, s[i].code) {
      if i < |a| { assert s[i] == a[i]; } else { assert s[i] == b[i - |a|]; }
    }
    forall i, j | 0 <= i < j < |s| ensures s[i].code != s[j].code {
      if j < |a| {
        assert s[i] == a[i] && s[j] == a[j];
      } else if |a| <= i {
        assert s[i] == b[i - |a|] && s[j] == b[j - |a|];
      } else {
        assert s[i] == a[i] && s[j] == b[j - |a|];
      }
      CatalogCodesDistinct(s[i], s[j]);
    }
  }

  /** The minimum loop: the result reaches `k` iff the start value and every row's count do. */
  lemma {:induction false} MinScoredFromAtLeast(m: int, rows: seq<HistoryRecord>, k: int)
    decreases |rows|
    ensures MinScoredFrom(m, rows) >= k <==>
      m >= k && forall i | 0 <= i < |rows| :: rows[i].timesScored >= k
  {
    if rows != [] {
      var m' := if m > rows[0].timesScored then rows[0].timesScored else m;
      MinScoredFromAtLeast(m', rows[1..], k);
      assert forall i | 0 <= i < |rows| - 1 :: rows[1..][i] == rows[i + 1];
      if m >= k && forall i | 0 <= i < |rows| :: rows[i].timesScored >= k {
        assert m' >= k;
      }
    }
  }

  /** The minimum loop finds the least of the start value and the rows' counts. */
  lemma {:induction false} MinScoredFromIsMinimum(m: int, rows: seq<HistoryRecord>)
    decreases |rows|
    ensures MinScoredFrom(m, rows) <= m
    ensures forall i | 0 <= i < |rows| :: MinScoredFrom(m, rows) <= rows[i].timesScored
    ensures MinScoredFrom(m, rows) == m || exists i :: 0 <= i < |rows| && MinScoredFrom(m, rows) == rows[i].timesScored
  {
    if rows != [] {
      var m' := if m > rows[0].timesScored then rows[0].timesScored else m;
      MinScoredFromIsMinimum(m', rows[1..]);
      assert forall i | 0 <= i < |rows| - 1 :: rows[1..][i] == rows[i + 1];
      if MinScoredFrom(m, rows) != m' {
        var i :| 0 <= i < |rows[1..]| && MinScoredFrom(m', rows[1..]) == rows[1..][i].timesScored;
        assert MinScoredFrom(m, rows) == rows[i + 1].timesScored;
      }
    }
  }

  /**
   * The ALL tier reaches level `k` iff the customer has exactly four history
   * rows and every one of them has been scored at least `k` times.
   */
  lemma MinScoredAtLeast(rows: seq<HistoryRecord>, k: int)
    requires 1 <= k <= MinScoredStart
    ensures MinScored(rows) >= k <==> |rows| == 4 && forall i | 0 <= i < |rows| :: rows[i].timesScored >= k
  {
    if |rows| == 4 {
      MinScoredFromAtLeast(MinScoredStart, rows, k);
    }
  }

  /**
   * The write loop: the awards written are one per badge, in order, for this
   * customer at `now`, up to the first write that fails; that write is the error.
   */
  lemma {:induction false} WriteAwardsSpec(awards: seq<BadgeAward>, failing: set<Call>, cif: string, badges: seq<BadgeType>, now: Time)
    decreases |badges|
    ensures var (err, a) := WriteAwards(awards, failing, cif, badges, now);
      var n := |a| - |awards|;
      && |awards| <= |a| <= |awards| + |badges|
      && a[..|awards|] == awards
      && (forall k | |awards| <= k < |a| :: a[k] == BadgeAward(badges[k - |awards|].code, cif, now))
      && (forall k | 0 <= k < n :: BadgePut(badges[k].code) !in failing)
      && (if n < |badges| then err == Some(BadgePut(badges[n].code)) && BadgePut(badges[n].code) in failing
          else err == None)
  {
    if badges != [] && BadgePut(badges[0].code) !in failing {
      var next := awards + [BadgeAward(badges[0].code, cif, now)];
      WriteAwardsSpec(next, failing, cif, badges[1..], now);
      var (err, a) := WriteAwards(next, failing, cif, badges[1..], now);
      assert a[..|next|][..|awards|] == a[..|awards|];
      assert a[|awards|] == a[..|next|][|awards|];
      forall k | 0 <= k < |a| - |awards|
        ensures BadgePut(badges[k].code) !in failing
      {
        if k > 0 {
          assert badges[k] == badges[1..][k - 1];
        }
      }
    }
  }

  /**
   * Writing badges whose codes are distinct from each other and from the
   * customer's existing awards keeps every customer's award codes distinct.
   */
  lemma WriteAwardsKeepsDistinct(awards: seq<BadgeAward>, failing: set<Call>, cif: string, badges: seq<BadgeType>, now: Time)
    requires DistinctAwards(awards)
    requires DistinctCodes(badges)
    requires Unawarded(badges, awards, cif)
    ensures DistinctAwards(WriteAwards(awards, failing, cif, badges, now).1)
  {
    WriteAwardsSpec(awards, failing, cif, badges, now);
    var a := WriteAwards(awards, failing, cif, badges, now).1;
    var n := |awards|;
    forall i, j | 0 <= i < j < |a| && a[i].cif == a[j].cif
      ensures a[i].badgeCode != a[j].badgeCode
    {
      if j < n {
        assert a[i] == awards[i] && a[j] == awards[j];
      } else if i < n {
        assert a[i] == awards[i] && a[i] in awards;
        assert !Awarded(awards, cif, badges[j - n].code);
      }
    }
  }
}
