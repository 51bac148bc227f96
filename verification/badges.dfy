/** The badge catalog and the reads of a customer's awards through it. */
module Badges {
  import opened Wrappers
  import opened Lookups
  import opened Categories
  import opened Repositories

  datatype BadgeType = BadgeType(code: string, name: string, category: ScoreCategory, level: int)

  const DirectDebitLevel1 := BadgeType("DD1", "Direct Debit Checker", DirectDebits, 1)
  const DirectDebitLevel2 := BadgeType("DD2", "Direct Debit Pro", DirectDebits, 2)
  const DirectDebitLevel3 := BadgeType("DD3", "Direct Debit Wizard", DirectDebits, 3)
  const StandingOrdersLevel1 := BadgeType("SO1", "Standing Order Checker", StandingOrders, 1)
  const StandingOrdersLevel2 := BadgeType("SO2", "Standing Order Pro", StandingOrders, 2)
  const StandingOrdersLevel3 := BadgeType("SO3", "Standing Order Wizard", StandingOrders, 3)
  const IncomesLevel1 := BadgeType("IN1", "Income Checker", Incomes, 1)
  const IncomesLevel2 := BadgeType("IN2", "Income Pro", Incomes, 2)
  const IncomesLevel3 := BadgeType("IN3", "Income Wizard", Incomes, 3)
  const ContactDetails1 := BadgeType("CD1", "Contact Details Checker", ContactDetails, 1)
  const ContactDetails2 := BadgeType("CD2", "Contact Details Pro", ContactDetails, 2)
  const ContactDetails3 := BadgeType("CD3", "Contact Details Wizard", ContactDetails, 3)
  const AllDetails1 := BadgeType("ALL1", "Account Checker", All, 1)
  const AllDetails2 := BadgeType("ALL2", "Account Pro", All, 2)
  const AllDetails3 := BadgeType("ALL3", "Account Guru", All, 3)

  /** Go's zero value `BadgeType{}`. */
  const NoBadge := BadgeType("", "", NoCategory, 0)

  const AllBadgeTypes: seq<BadgeType> := [
    DirectDebitLevel1, DirectDebitLevel2, DirectDebitLevel3,
    StandingOrdersLevel1, StandingOrdersLevel2, StandingOrdersLevel3,
    IncomesLevel1, IncomesLevel2, IncomesLevel3,
    ContactDetails1, ContactDetails2, ContactDetails3,
    AllDetails1, AllDetails2, AllDetails3]

  function BadgeCode(b: BadgeType): string { b.code }

  /** `BadgeTypeLookup` as the `init` loop leaves it. */
  const BadgeTypeLookup: map<string, BadgeType> := IndexBy(AllBadgeTypes, BadgeCode)

  /** The package `init`: fills the lookup map entry by entry. */
  method InitBadgeTypeLookup() returns (lookup: map<string, BadgeType>)
    ensures lookup == BadgeTypeLookup
    ensures forall code :: code in lookup <==>
      exists i :: 0 <= i < |AllBadgeTypes| && AllBadgeTypes[i].code == code
    ensures forall i | 0 <= i < |AllBadgeTypes| :: lookup[AllBadgeTypes[i].code] == AllBadgeTypes[i]
  {
    lookup := map[];
    var i := 0;
    while i < |AllBadgeTypes|
      invariant 0 <= i <= |AllBadgeTypes|
      invariant lookup == IndexBy(AllBadgeTypes[..i], BadgeCode)
    {
      var bt := AllBadgeTypes[i];
      assert AllBadgeTypes[..i + 1][..i] == AllBadgeTypes[..i];
      lookup := lookup[bt.code := bt];
      i := i + 1;
    }
    assert AllBadgeTypes[..i] == AllBadgeTypes;
    BadgeLookupExact();
  }

  /** The catalog: 15 badges with distinct codes, each of a known category and level 1..3. */
  lemma BadgeCatalog()
    ensures |AllBadgeTypes| == 15
    ensures DistinctKeys(AllBadgeTypes, BadgeCode)
    ensures forall i | 0 <= i < |AllBadgeTypes| ::
      AllBadgeTypes[i].category in AllScoreCategories && 1 <= AllBadgeTypes[i].level <= 3
    ensures forall i, j | 0 <= i < j < |AllBadgeTypes| ::
      AllBadgeTypes[i].category != AllBadgeTypes[j].category || AllBadgeTypes[i].level != AllBadgeTypes[j].level
  {
    BadgeCodesDistinct();
    BadgeSlotsDistinct();
  }

  lemma BadgeCodesDistinct()
    ensures DistinctKeys(AllBadgeTypes, BadgeCode)
  {
    assert forall i | 0 <= i < |AllBadgeTypes| :: CodePosition(AllBadgeTypes[i].code) == i;
  }

  lemma BadgeSlotsDistinct()
    ensures forall i, j | 0 <= i < j < |AllBadgeTypes| ::
      AllBadgeTypes[i].category != AllBadgeTypes[j].category || AllBadgeTypes[i].level != AllBadgeTypes[j].level
  {
    assert forall i | 0 <= i < |AllBadgeTypes| ::
      CategoryPosition(AllBadgeTypes[i].category) * 3 + AllBadgeTypes[i].level - 1 == i;
  }

  // Proof helpers: the position of a code, and of a category, in catalog order. A code is read
  // by its first letter (the category) and its last character (the level digit).
  function CodePosition(code: string): int
  {
    if |code| == 0 then -1
    else CategoryLetterPosition(code[0]) * 3 + (code[|code| - 1] as int - '1' as int)
  }

  function CategoryLetterPosition(c: char): int
  {
    if c == 'D' then 0 else if c == 'S' then 1 else if c == 'I' then 2 else if c == 'C' then 3 else 4
  }

  function CategoryPosition(c: ScoreCategory): int
  {
    if c == DirectDebits then 0 else if c == StandingOrders then 1
    else if c == Incomes then 2 else if c == ContactDetails then 3 else 4
  }

  /** One badge for each of the five categories and each level 1..3. */
  lemma CatalogCovers(c: ScoreCategory, level: int)
    requires c in AllScoreCategories && 1 <= level <= 3
    ensures exists i :: 0 <= i < |AllBadgeTypes| && AllBadgeTypes[i].category == c && AllBadgeTypes[i].level == level
  {
    var k := if c == DirectDebits then 0 else if c == StandingOrders then 3
      else if c == Incomes then 6 else if c == ContactDetails then 9 else 12;
    assert AllBadgeTypes[k + level - 1].category == c;
  }

  /** After `init`, the lookup maps each catalog code to its badge and has no other key. */
  lemma BadgeLookupExact()
    ensures forall code :: code in BadgeTypeLookup <==>
      exists i :: 0 <= i < |AllBadgeTypes| && AllBadgeTypes[i].code == code
    ensures forall i | 0 <= i < |AllBadgeTypes| :: BadgeTypeLookup[AllBadgeTypes[i].code] == AllBadgeTypes[i]
  {
    BadgeCatalog();
    IndexByKeys(AllBadgeTypes, BadgeCode);
    forall code ensures code in BadgeTypeLookup <==>
      exists i :: 0 <= i < |AllBadgeTypes| && AllBadgeTypes[i].code == code
    {
      if code in BadgeTypeLookup {
        var i :| 0 <= i < |AllBadgeTypes| && BadgeCode(AllBadgeTypes[i]) == code;
      }
    }
    forall i | 0 <= i < |AllBadgeTypes| ensures BadgeTypeLookup[AllBadgeTypes[i].code] == AllBadgeTypes[i] {
      IndexByFinds(AllBadgeTypes, BadgeCode, i);
    }
  }

  /** `BadgeTypeLookup[code]`: the zero badge for an unknown code. */
  function LookupBadgeType(code: string): (b: BadgeType)
    ensures code in BadgeTypeLookup ==> b.code == code && b in AllBadgeTypes
    ensures code !in BadgeTypeLookup ==> b == NoBadge
  {
    if code in BadgeTypeLookup then
      IndexByValues(AllBadgeTypes, BadgeCode, code);
      BadgeTypeLookup[code]
    else NoBadge
  }

  /** The search of `GetBadgeType` over a list: the first badge with that category and level. */
  function FindBadgeType(badges: seq<BadgeType>, cat: ScoreCategory, level: int): (BadgeType, bool)
  {
    if badges == [] then (NoBadge, false)
    else if badges[0].category == cat && badges[0].level == level then (badges[0], true)
    else FindBadgeType(badges[1..], cat, level)
  }

  /** What the search finds: a badge with the category and level asked for, or nothing if none exists. */
  lemma {:induction false} FindBadgeTypeSpec(badges: seq<BadgeType>, cat: ScoreCategory, level: int)
    ensures var (b, ok) := FindBadgeType(badges, cat, level);
      && (ok <==> exists i :: 0 <= i < |badges| && badges[i].category == cat && badges[i].level == level)
      && (ok ==> b in badges && b.category == cat && b.level == level)
      && (!ok ==> b == NoBadge)
  {
    if badges != [] && !(badges[0].category == cat && badges[0].level == level) {
      FindBadgeTypeSpec(badges[1..], cat, level);
      var (b, ok) := FindBadgeType(badges, cat, level);
      if exists i :: 0 <= i < |badges| && badges[i].category == cat && badges[i].level == level {
        var i :| 0 <= i < |badges| && badges[i].category == cat && badges[i].level == level;
        assert badges[1..][i - 1] == badges[i];
      }
    }
  }

  /** One step of the search: a match at `i` is the answer, otherwise the search goes on after it. */
  lemma FindBadgeTypeStep(badges: seq<BadgeType>, i: int, cat: ScoreCategory, level: int)
    requires 0 <= i < |badges|
    ensures FindBadgeType(badges[i..], cat, level)
      == if badges[i].category == cat && badges[i].level == level then (badges[i], true)
         else FindBadgeType(badges[i + 1..], cat, level)
  {
    assert badges[i..][1..] == badges[i + 1..];
  }

  /** `GetBadgeType`: the (category, level) badge of the catalog, or (zero value, false). */
  method GetBadgeType(cat: ScoreCategory, level: int) returns (b: BadgeType, ok: bool)
    ensures (b, ok) == FindBadgeType(AllBadgeTypes, cat, level)
    ensures ok <==> cat in AllScoreCategories && 1 <= level <= 3
    ensures ok ==> b in AllBadgeTypes && b.category == cat && b.level == level
    ensures !ok ==> b == NoBadge
  {
    var i := 0;
    while i < |AllBadgeTypes|
      invariant 0 <= i <= |AllBadgeTypes|
      invariant FindBadgeType(AllBadgeTypes[i..], cat, level) == FindBadgeType(AllBadgeTypes, cat, level)
    {
      var candidate := AllBadgeTypes[i];
      FindBadgeTypeStep(AllBadgeTypes, i, cat, level);
      if candidate.category == cat && candidate.level == level {
        b, ok := candidate, true;
        CatalogBadgeType(cat, level);
        return;
      }
      i := i + 1;
    }
    b, ok := NoBadge, false;
    CatalogBadgeType(cat, level);
  }

  /** The catalog holds a badge for (cat, level) exactly when cat is one of the five and level is 1..3. */
  lemma CatalogBadgeType(cat: ScoreCategory, level: int)
    ensures var (b, ok) := FindBadgeType(AllBadgeTypes, cat, level);
      && (ok <==> cat in AllScoreCategories && 1 <= level <= 3)
      && (ok ==> b in AllBadgeTypes && b.category == cat && b.level == level)
      && (!ok ==> b == NoBadge)
  {
    BadgeCatalog();
    FindBadgeTypeSpec(AllBadgeTypes, cat, level);
    if cat in AllScoreCategories && 1 <= level <= 3 {
      CatalogCovers(cat, level);
    }
  }

  /** The badge of the catalog for a category and level, or the zero badge. */
  function CatalogBadge(cat: ScoreCategory, level: int): BadgeType
  {
    FindBadgeType(AllBadgeTypes, cat, level).0
  }

  /** The catalog badge for one of the five categories and a level 1..3 has that category and level. */
  lemma CatalogBadgeSpec(cat: ScoreCategory, level: int)
    requires cat in AllScoreCategories && 1 <= level <= 3
    ensures CatalogBadge(cat, level) in AllBadgeTypes
    ensures CatalogBadge(cat, level).category == cat && CatalogBadge(cat, level).level == level
  {
    CatalogBadgeType(cat, level);
  }

  /** The loop of `getBadges`: catalog types of the records whose code is known and satisfies `pred`. */
  function MatchingBadges(records: seq<BadgeAward>, pred: BadgeType -> bool): seq<BadgeType>
  {
    if records == [] then []
    else
      var last := records[|records| - 1];
      MatchingBadges(records[..|records| - 1], pred)
        + (if last.badgeCode in BadgeTypeLookup && pred(BadgeTypeLookup[last.badgeCode])
           then [BadgeTypeLookup[last.badgeCode]] else [])
  }

  /** One step of the `getBadges` loop: the record at `i` contributes its catalog type or nothing. */
  lemma MatchingBadgesStep(records: seq<BadgeAward>, i: int, pred: BadgeType -> bool)
    requires 0 <= i < |records|
    ensures MatchingBadges(records[..i + 1], pred) == MatchingBadges(records[..i], pred)
      + (if records[i].badgeCode in BadgeTypeLookup && pred(BadgeTypeLookup[records[i].badgeCode])
         then [BadgeTypeLookup[records[i].badgeCode]] else [])
  {
    assert records[..i + 1][..i] == records[..i];
  }

  /** The predicate passed by `GetBadgesByCategory`. */
  function InCategory(cat: ScoreCategory): BadgeType -> bool
  {
    (b: BadgeType) => b.category == cat
  }

  /** The predicate passed by `GetAllBadges`. */
  function AnyBadge(): BadgeType -> bool
  {
    (b: BadgeType) => true
  }

  /** Every badge read is a catalog badge satisfying `pred`, and there are at most as many as records. */
  lemma {:induction false} MatchingBadgesBounded(records: seq<BadgeAward>, pred: BadgeType -> bool)
    ensures |MatchingBadges(records, pred)| <= |records|
    ensures forall b | b in MatchingBadges(records, pred) :: b in AllBadgeTypes && pred(b)
  {
    if records != [] {
      MatchingBadgesBounded(records[..|records| - 1], pred);
      var last := records[|records| - 1];
      if last.badgeCode in BadgeTypeLookup {
        IndexByValues(AllBadgeTypes, BadgeCode, last.badgeCode);
      }
    }
  }

  /**
   * A badge is in the result iff some record carries its code, the code is in the catalog and the
   * badge satisfies `pred`; every result is a catalog badge. Unknown codes are dropped, duplicates kept.
   */
  lemma {:induction false} MatchingBadgesMembers(records: seq<BadgeAward>, pred: BadgeType -> bool)
    ensures |MatchingBadges(records, pred)| <= |records|
    ensures forall b | b in MatchingBadges(records, pred) :: b in AllBadgeTypes && pred(b)
    ensures forall b :: b in MatchingBadges(records, pred) <==>
      exists i :: 0 <= i < |records| && records[i].badgeCode in BadgeTypeLookup
        && BadgeTypeLookup[records[i].badgeCode] == b && pred(b)
  {
    MatchingBadgesBounded(records, pred);
    MatchingBadgesFrom(records, pred);
  }

  lemma {:induction false} MatchingBadgesFrom(records: seq<BadgeAward>, pred: BadgeType -> bool)
    ensures forall b :: b in MatchingBadges(records, pred) <==>
      exists i :: 0 <= i < |records| && records[i].badgeCode in BadgeTypeLookup
        && BadgeTypeLookup[records[i].badgeCode] == b && pred(b)
  {
    if records != [] {
      var init := records[..|records| - 1];
      MatchingBadgesFrom(init, pred);
      forall b ensures b in MatchingBadges(records, pred) <==>
        exists i :: 0 <= i < |records| && records[i].badgeCode in BadgeTypeLookup
          && BadgeTypeLookup[records[i].badgeCode] == b && pred(b)
      {
        if b in MatchingBadges(init, pred) {
          var i :| 0 <= i < |init| && init[i].badgeCode in BadgeTypeLookup
            && BadgeTypeLookup[init[i].badgeCode] == b && pred(b);
          assert records[i] == init[i];
        }
        if exists i :: 0 <= i < |records| && records[i].badgeCode in BadgeTypeLookup
                       && BadgeTypeLookup[records[i].badgeCode] == b && pred(b)
        {
          var i :| 0 <= i < |records| && records[i].badgeCode in BadgeTypeLookup
            && BadgeTypeLookup[records[i].badgeCode] == b && pred(b);
          if i < |init| { assert init[i] == records[i]; }
        }
      }
    }
  }

  /** The owned badges of a category, as `GetBadgesByCategory` reads them. */
  function BadgesOfCategory(awards: seq<BadgeAward>, cif: string, cat: ScoreCategory): seq<BadgeType>
  {
    MatchingBadges(AwardsOf(awards, cif), InCategory(cat))
  }

  /** Every badge read for a category belongs to that category. */
  lemma BadgesOfCategoryInCategory(awards: seq<BadgeAward>, cif: string, cat: ScoreCategory)
    ensures forall b | b in BadgesOfCategory(awards, cif, cat) :: b.category == cat && b in AllBadgeTypes
  {
    MatchingBadgesMembers(AwardsOf(awards, cif), InCategory(cat));
  }

  /**
   * Reading the awards through the catalog loses no ownership: a catalog badge of category `cat`
   * is among the badges read for `cat` iff the customer has an award with its code.
   */
  lemma OwnedIffAwarded(awards: seq<BadgeAward>, cif: string, cat: ScoreCategory, b: BadgeType)
    requires b in AllBadgeTypes && b.category == cat
    ensures b in BadgesOfCategory(awards, cif, cat) <==>
      exists a :: a in awards && a.cif == cif && a.badgeCode == b.code
  {
    var records := AwardsOf(awards, cif);
    MatchingBadgesMembers(records, InCategory(cat));
    BadgeLookupExact();
    var i :| 0 <= i < |AllBadgeTypes| && AllBadgeTypes[i] == b;
    assert BadgeTypeLookup[b.code] == b;
    if exists a :: a in awards && a.cif == cif && a.badgeCode == b.code {
      var a :| a in awards && a.cif == cif && a.badgeCode == b.code;
      assert a in records;
      var k :| 0 <= k < |records| && records[k] == a;
      assert InCategory(cat)(b);
    }
    if b in BadgesOfCategory(awards, cif, cat) {
      var k :| 0 <= k < |records| && records[k].badgeCode in BadgeTypeLookup
        && BadgeTypeLookup[records[k].badgeCode] == b && InCategory(cat)(b);
      IndexByValues(AllBadgeTypes, BadgeCode, records[k].badgeCode);
      assert records[k] in records;
    }
  }
}
