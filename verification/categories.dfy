/** The scoring categories: four tracked areas plus the aggregate `ALL`. */
module Categories {
  import opened Lookups

  datatype ScoreCategory = ScoreCategory(code: string, name: string)

  const DirectDebits := ScoreCategory("DD", "Direct Debits")
  const StandingOrders := ScoreCategory("SO", "Standing Orders")
  const Incomes := ScoreCategory("IN", "Incomes")
  const ContactDetails := ScoreCategory("CD", "Contact Details")
  /** The aggregate category; its name is the same as ContactDetails' in the source. */
  const All := ScoreCategory("ALL", "Contact Details")

  /** Go's zero value `ScoreCategory{}`, returned by a lookup of an unknown code. */
  const NoCategory := ScoreCategory("", "")

  const AllScoreCategories: seq<ScoreCategory> :=
    [DirectDebits, StandingOrders, Incomes, ContactDetails, All]

  function CategoryCode(c: ScoreCategory): string { c.code }

  /** `ScoreCategoryLookup` as the `init` loop leaves it. */
  const ScoreCategoryLookup: map<string, ScoreCategory> := IndexBy(AllScoreCategories, CategoryCode)

  /** The four categories a customer confirms. */
  predicate IsPrimary(c: ScoreCategory)
  {
    c == DirectDebits || c == StandingOrders || c == Incomes || c == ContactDetails
  }

  /** `ScoreCategoryLookup[code]`: Go yields the zero value for a missing key. */
  function LookupCategory(code: string): (c: ScoreCategory)
    ensures code in ScoreCategoryLookup ==> c.code == code && c in AllScoreCategories
    ensures code !in ScoreCategoryLookup ==> c == NoCategory
  {
    if code in ScoreCategoryLookup then
      IndexByValues(AllScoreCategories, CategoryCode, code);
      ScoreCategoryLookup[code]
    else NoCategory
  }

  /** The package `init`: fills the lookup map entry by entry. */
  method InitScoreCategoryLookup() returns (lookup: map<string, ScoreCategory>)
    ensures lookup == ScoreCategoryLookup
    ensures lookup.Keys == {"DD", "SO", "IN", "CD", "ALL"}
    ensures forall i | 0 <= i < |AllScoreCategories| ::
      lookup[AllScoreCategories[i].code] == AllScoreCategories[i]
  {
    lookup := map[];
    var i := 0;
    while i < |AllScoreCategories|
      invariant 0 <= i <= |AllScoreCategories|
      invariant lookup == IndexBy(AllScoreCategories[..i], CategoryCode)
    {
      var sc := AllScoreCategories[i];
      assert AllScoreCategories[..i + 1][..i] == AllScoreCategories[..i];
      lookup := lookup[sc.code := sc];
      i := i + 1;
    }
    assert AllScoreCategories[..i] == AllScoreCategories;
    CategoryCatalog();
    IndexByKeys(AllScoreCategories, CategoryCode);
    CategoryCodes();
    forall i | 0 <= i < |AllScoreCategories|
      ensures lookup[AllScoreCategories[i].code] == AllScoreCategories[i]
    {
      IndexByFinds(AllScoreCategories, CategoryCode, i);
    }
  }

  /** Five categories, listed DD, SO, IN, CD, ALL, with pairwise distinct codes. */
  lemma CategoryCatalog()
    ensures |AllScoreCategories| == 5
    ensures AllScoreCategories == [DirectDebits, StandingOrders, Incomes, ContactDetails, All]
    ensures DistinctKeys(AllScoreCategories, CategoryCode)
    ensures forall c :: IsPrimary(c) <==> c in AllScoreCategories[..4]
  {
    assert AllScoreCategories[..4] == [DirectDebits, StandingOrders, Incomes, ContactDetails];
  }

  lemma CategoryCodes()
    ensures (set i | 0 <= i < |AllScoreCategories| :: CategoryCode(AllScoreCategories[i]))
         == {"DD", "SO", "IN", "CD", "ALL"}
  {
    var s := set i | 0 <= i < |AllScoreCategories| :: CategoryCode(AllScoreCategories[i]);
    assert CategoryCode(AllScoreCategories[0]) == "DD";
    assert CategoryCode(AllScoreCategories[1]) == "SO";
    assert CategoryCode(AllScoreCategories[2]) == "IN";
    assert CategoryCode(AllScoreCategories[3]) == "CD";
    assert CategoryCode(AllScoreCategories[4]) == "ALL";
  }

  /** The lookup maps each of the five codes to its category and has no other key. */
  lemma CategoryLookupExact()
    ensures ScoreCategoryLookup.Keys == {"DD", "SO", "IN", "CD", "ALL"}
    ensures forall c | c in AllScoreCategories :: ScoreCategoryLookup[c.code] == c
  {
    CategoryCatalog();
    IndexByKeys(AllScoreCategories, CategoryCode);
    CategoryCodes();
    forall c | c in AllScoreCategories ensures ScoreCategoryLookup[c.code] == c {
      var i :| 0 <= i < |AllScoreCategories| && AllScoreCategories[i] == c;
      IndexByFinds(AllScoreCategories, CategoryCode, i);
    }
  }

  /** ALL and CD share a name, so struct equality separates them only through their codes. */
  lemma AllSharesContactDetailsName()
    ensures All.name == ContactDetails.name
    ensures All != ContactDetails && All.code != ContactDetails.code
    ensures !IsPrimary(All)
  {
  }
}
