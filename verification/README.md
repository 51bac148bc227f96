# tm-game-backend in Dafny

tm-game-backend is the backend of a banking game. A customer confirms that one
of their groups of details is still right: the direct debits, the standing
orders, the incomes or the contact details. A confirmation made more than a
month after the last scored one for that category earns 100 points. After
enough scored confirmations the customer receives badges: levels 1, 2 and 3 of
the category at 1, 3 and 6 scorings, and "ALL" badges once all four categories
have been scored that often. A leaderboard shows each customer their score,
their place and whether they share that place with someone. Behind the
handlers sit providers. They fetch the customer's direct debits, standing
orders and contact details from the bank's upstream system and write changes
back, each translating between the upstream records and the backend's own
payment, contact-details and address values. Each provider keeps a memo of
every customer's primary account id.

The model consists of these modules:

- `Categories` and `Badges`: the two catalogs and their lookup tables.
- `Repositories`: the score, history and badge stores as values, with the
  getters and putters the handlers call.
- `Confirmation`: the confirmation engine. The handler is a class holding the
  three stores; each of its methods is proved equal to a function on values.
  `BadgeRules` and `ConfirmationProperties` prove what that engine promises.
- `UserScore`: the leaderboard response and its ranking loop.
- `Payments`: the payment value, pence conversion and the shared conversion
  loop.
- `AccountCache`: the account-id memo, as a class over a map.
- `DirectDebits`, `StandingOrders` and `ContactDetailsProvider`: the three
  providers.

Each remote request is a parameter of the operation that makes it: what the
request (and the decoding of its answer) yields, and whether a store call
fails.

## Model

| member | source | states |
|---|---|---|
| Categories.LookupCategory | handlers/common/categories.go:15 | a known code yields the catalog category with that code; an unknown code yields the zero category |
| Categories.InitScoreCategoryLookup | handlers/common/categories.go:18-30 | the lookup built by `init` maps each category's code to that category and has no other key |
| Categories.CategoryCatalog | handlers/common/categories.go:9-25 | five categories, listed DD, SO, IN, CD, ALL, with pairwise distinct codes |
| Categories.CategoryCodes | handlers/common/categories.go:9-13 | the codes and names of the five categories |
| Categories.CategoryLookupExact | handlers/common/categories.go:26-29 | the lookup maps each of the five codes to its category and has no other key |
| Categories.AllSharesContactDetailsName | handlers/common/categories.go:12-13 | ALL and CD have the same name, so only their codes tell them apart |
| Lookups.IndexByKeys | handlers/common/categories.go:27-29 | the keys of a map built by the `init` loop are exactly the keys of the entries |
| Lookups.IndexByValues | handlers/common/badges.go:49-51 | every value of the built map is stored under its own key and comes from the list |
| Lookups.IndexByFinds | handlers/common/badges.go:49-51 | when the keys are distinct, each entry is found under its key |
| Badges.InitBadgeTypeLookup | handlers/common/badges.go:30-52 | the badge lookup maps each catalog code to its badge and has no other key |
| Badges.BadgeCatalog | handlers/common/badges.go:11-47 | 15 badges with distinct codes, each of a known category and a level from 1 to 3 |
| Badges.BadgeCodesDistinct | handlers/common/badges.go:11-25 | no two catalog badges share a code |
| Badges.BadgeSlotsDistinct | handlers/common/badges.go:11-25 | no two catalog badges share a (category, level) pair |
| Badges.CatalogCovers | handlers/common/badges.go:11-25 | every one of the five categories has a badge for each level from 1 to 3 |
| Badges.BadgeLookupExact | handlers/common/badges.go:48-51 | after `init`, the lookup maps each catalog code to its badge and has no other key |
| Badges.LookupBadgeType | handlers/common/badges.go:27 | a known code yields the catalog badge with that code; an unknown code yields the zero badge |
| Badges.FindBadgeTypeSpec | handlers/common/badges.go:76-80 | the search finds a badge with the requested category and level, or reports that none exists |
| Badges.FindBadgeTypeStep | handlers/common/badges.go:77-79 | a match at index i is the answer; otherwise the search continues after i |
| Badges.GetBadgeType | handlers/common/badges.go:76-80 | returns the first catalog badge with the category and level, or the zero badge and false |
| Badges.CatalogBadgeType | handlers/common/badges.go:76-80 | the lookup succeeds exactly for one of the five categories with a level from 1 to 3 |
| Badges.CatalogBadgeSpec | handlers/common/badges.go:76-80 | the badge found has the category and level that were asked for |
| Badges.MatchingBadgesStep | handlers/common/badges.go:66-71 | one step of the `getBadges` loop adds the record's catalog badge or nothing |
| Badges.MatchingBadgesBounded | handlers/common/badges.go:62-74 | every badge read is a catalog badge that satisfies the predicate; there are no more badges than records |
| Badges.MatchingBadgesMembers | handlers/common/badges.go:62-74 | a badge is read iff some record carries its code, the code is in the catalog and the predicate holds; unknown codes are dropped |
| Badges.MatchingBadgesFrom | handlers/common/badges.go:62-74 | each badge read is the catalog badge of some record's code |
| Badges.BadgesOfCategoryInCategory | handlers/common/badges.go:54-56 | every badge read for a category belongs to that category |
| Badges.OwnedIffAwarded | handlers/common/badges.go:54-74 | a catalog badge of the category is read iff the customer has an award with its code |
| Repositories.ScoreLookup | handlers/common/confirmation.go:69 | the stored score record and true, or the zero record and false when there is none |
| Repositories.FindHistory | handlers/common/confirmation.go:72 | the first row stored under (cif, code), if there is one |
| Repositories.RowsOf | handlers/common/confirmation.go:141 | exactly the customer's history rows, in table order |
| Repositories.AwardsOf | handlers/common/confirmation.go:115 | exactly the customer's awards, in the order they were written |
| Repositories.FindAfterUpsert | store/scorehistorystore.go:51-69 | after a put, the getter returns the row just written |
| Repositories.FindOtherAfterUpsert | store/scorehistorystore.go:51-69 | a put leaves the rows of every other key as they were |
| Repositories.UpsertRows | store/scorehistorystore.go:51-69 | every row after a put is the new row or a row that was there before |
| Repositories.RowsOfAfterUpsert | store/scorehistorystore.go:51-69 | reading all rows after a put: a new key's row comes after the customer's other rows; a replacement keeps the number of rows |
| Repositories.UpsertKeepsUniqueKeys | store/scorehistorystore.go:56-58 | a put keeps at most one row per (customer, category) key |
| Confirmation.CurrentRow | handlers/common/confirmation.go:72-80 | the stored row for (cif, code), or a zeroed row carrying that cif and code |
| Confirmation.Confirmed | handlers/common/confirmation.go:90-98 | the confirmation count goes up by 1; past the cooldown the score count goes up by 1 and the last scored time becomes now; the last confirmed time becomes now |
| Confirmation.HasBadge | handlers/common/confirmation.go:178-185 | returns true iff some owned badge has the code of the badge asked about |
| Confirmation.ConfirmationHandler.constructor | handlers/common/confirmation.go:17-25 | the handler holds the three stores and the set of failing calls it is given |
| Confirmation.ConfirmationHandler.ScoreGetter | handlers/common/confirmation.go:18 | the stored score record and a found flag, or the failure |
| Confirmation.ConfirmationHandler.ScorePutter | handlers/common/confirmation.go:19 | writes the score under the record's cif, or fails and changes nothing; the other stores are unchanged |
| Confirmation.ConfirmationHandler.CategoryGetter | handlers/common/confirmation.go:20 | the first history row for (cif, code) and whether one exists, or the failure |
| Confirmation.ConfirmationHandler.CategoryGetAll | handlers/common/confirmation.go:21 | the customer's history rows in table order, or the failure |
| Confirmation.ConfirmationHandler.CategoryPutter | handlers/common/confirmation.go:22 | upserts the row by (cif, code), or fails and changes nothing; the other stores are unchanged |
| Confirmation.ConfirmationHandler.BadgeGetter | handlers/common/confirmation.go:23 | the customer's awards in the order written, or the failure |
| Confirmation.ConfirmationHandler.BadgePutter | handlers/common/confirmation.go:24 | appends the award, or fails and changes nothing; the other stores are unchanged |
| Confirmation.ConfirmationHandler.GetBadges | handlers/common/badges.go:62-74 | the catalog badges of the customer's awards that satisfy the predicate, in award order; a failed read is an error |
| Confirmation.ConfirmationHandler.GetBadgesByCategory | handlers/common/badges.go:54-56 | the customer's badges of that category; each one is a catalog badge of that category |
| Confirmation.ConfirmationHandler.GetAllBadges | handlers/common/badges.go:58-60 | all the customer's badges; every award whose code is in the catalog appears in the result |
| Confirmation.ConfirmationHandler.AddTier | handlers/common/confirmation.go:120-123 | appends the level badge exactly when the count reaches the level's threshold and the badge is not owned |
| Confirmation.ConfirmationHandler.AddTierBadges | handlers/common/confirmation.go:120-131 | appends the level 1, 2 and 3 badges that have been earned and are not owned, in that order |
| Confirmation.ConfirmationHandler.MinTimesScored | handlers/common/confirmation.go:140-151 | the least score count over the rows, starting from 1000 when there are exactly four rows; otherwise 0 |
| Confirmation.ConfirmationHandler.PutBadges | handlers/common/confirmation.go:165-173 | writes one award per badge in order and stops at the first failing write; scores and history are unchanged |
| Confirmation.ConfirmationHandler.HandleBadges | handlers/common/confirmation.go:114-176 | the badges decided and the stores afterwards are those of `BadgeOutcome` |
| Confirmation.ConfirmationHandler.ScoreAndBadges | handlers/common/confirmation.go:102-109 | writes the raised score, then awards the badges, as `ScoringOutcome` describes |
| Confirmation.ConfirmationHandler.ConfirmCategory | handlers/common/confirmation.go:67-112 | the response and the stores afterwards are those of `ConfirmOutcome`, whose properties are proved in `ConfirmationProperties` |
| BadgeRules.CatalogCodesDistinct | handlers/common/badges.go:11-25 | two different catalog badges never share a code |
| BadgeRules.CatalogBadgeUnique | handlers/common/badges.go:76-80 | each catalog badge is the one `GetBadgeType` finds for its own category and level |
| BadgeRules.OwnsIffAwarded | handlers/common/confirmation.go:115-131 | `hasBadge` on the badges read for a category agrees with the award store |
| BadgeRules.TierBadgesMembers | handlers/common/confirmation.go:120-131 | a tier block yields exactly the category's catalog badges whose threshold (1, 3 or 6) is reached and which are not owned |
| BadgeRules.TierBadgesOrdered | handlers/common/confirmation.go:120-131 | a tier block lists its badges by ascending level, all of its category |
| BadgeRules.AppendTier | handlers/common/confirmation.go:124-131 | appending a higher level to a block keeps the block level-ordered |
| BadgeRules.TierBadgesUnawarded | handlers/common/confirmation.go:115-131 | a tier block over the badges read yields only badges the customer does not hold |
| BadgeRules.ConcatOrdered | handlers/common/confirmation.go:120-163 | the category block and then the ALL block: two categories, in that order, levels ascending within each |
| BadgeRules.ConcatUnawarded | handlers/common/confirmation.go:120-163 | the two blocks together hold new badges with distinct codes |
| BadgeRules.MinScoredFromAtLeast | handlers/common/confirmation.go:146-150 | the minimum reaches k iff the start value and every row's count reach k |
| BadgeRules.MinScoredFromIsMinimum | handlers/common/confirmation.go:146-150 | the loop finds the least of the start value and the rows' counts |
| BadgeRules.MinScoredAtLeast | handlers/common/confirmation.go:140-151 | the ALL tier reaches level k (k ≥ 1) iff the customer has exactly four rows and each is scored at least k times |
| BadgeRules.WriteAwardsSpec | handlers/common/confirmation.go:165-173 | the awards written are one per badge, in order, for this customer at now, up to the first failing write; that write is the error |
| BadgeRules.WriteAwardsKeepsDistinct | handlers/common/confirmation.go:165-173 | writing badges that are new and distinct keeps every customer's award codes distinct |
| ConfirmationProperties.BadgeOutcomeKeepsScoresAndHistory | handlers/common/confirmation.go:114-176 | `handleBadges` writes neither scores nor history |
| ConfirmationProperties.BadgeOutcomeAwards | handlers/common/confirmation.go:165-175 | `handleBadges` only appends awards for this customer dated now; on success it returns the badges it decided on, each written once |
| ConfirmationProperties.BadgeOutcomeNoFailure | handlers/common/confirmation.go:114-176 | when no call fails, it returns the badges it decides on and records one award for each |
| ConfirmationProperties.NewBadgesAreNew | handlers/common/confirmation.go:114-163 | for a primary category, the decided badges are catalog badges not yet awarded, with distinct codes |
| ConfirmationProperties.NewBadgesOrder | handlers/common/confirmation.go:118-163 | only the category's and ALL's badges are decided, the category's first, each group by ascending level |
| ConfirmationProperties.EarnedIffSomeLevel | handlers/common/confirmation.go:120-135 | the category tier is non-empty iff some level's threshold is reached and its badge is not awarded |
| ConfirmationProperties.NewCategoryBadges | handlers/common/confirmation.go:120-131 | a badge of the confirmed category is awarded iff its threshold is reached and it is not held yet |
| ConfirmationProperties.NewAllBadges | handlers/common/confirmation.go:133-163 | an ALL badge is awarded iff a category badge is too, the customer has exactly four rows each scored at least its threshold, and it is not held |
| ConfirmationProperties.BadgeOutcomeKeepsDistinct | handlers/common/confirmation.go:114-176 | for a primary category, no badge the customer holds is written again, and none is written twice |
| ConfirmationProperties.BadgeOutcomeNothingEarned | handlers/common/confirmation.go:133-135 | with the category read succeeding and no new category badge, `handleBadges` answers no badges and leaves every store as it was, whatever else would fail |
| ConfirmationProperties.BadgeOutcomeWrites | handlers/common/confirmation.go:165-173 | the award store afterwards is either unchanged or as the write loop leaves it |
| ConfirmationProperties.ReadFailureChangesNothing | handlers/common/confirmation.go:69-73 | a failing read or history write ends the confirmation with that error and changes nothing |
| ConfirmationProperties.ScoreWriteFailure | handlers/common/confirmation.go:99-105 | a failing score write on a scoring confirmation answers that error; the confirmed row stays recorded, and scores and awards are unchanged |
| ConfirmationProperties.ScoringStep | handlers/common/confirmation.go:99-108 | past the reads and the history write, a scoring confirmation hands the scored stores to `handleBadges` |
| ConfirmationProperties.ConfirmationRecordedHistory | handlers/common/confirmation.go:97-100 | the history store after a confirmation that gets past the reads and the history write |
| ConfirmationProperties.ConfirmationRecorded | handlers/common/confirmation.go:72-100 | the (cif, category) row becomes the confirmed row and no other key's row changes |
| ConfirmationProperties.CooldownGainsNothing | handlers/common/confirmation.go:90-111 | inside the cooldown: no points, no badges, score and awards unchanged |
| ConfirmationProperties.ScoringAddsPoints | handlers/common/confirmation.go:82-104 | past the cooldown, 100 points are added to the score (0 when there was none) and no other score changes |
| ConfirmationProperties.ScoringAnswer | handlers/common/confirmation.go:111 | a successful scoring confirmation answers 100 points, with the next eligible time one month after now |
| ConfirmationProperties.ScoringNoFailure | handlers/common/confirmation.go:90-111 | with nothing failing: 100 points, the next time and the decided badges, and the stores hold the scored tables plus one award per badge |
| ConfirmationProperties.CooldownRespected | handlers/common/confirmation.go:90 | after a success, the next confirmation of the category scores iff it comes after the answered next eligible time |
| ConfirmationProperties.ScoresNeverDecrease | handlers/common/confirmation.go:92-104 | no stored score goes down |
| ConfirmationProperties.AwardsOnlyAppended | handlers/common/confirmation.go:165-173 | the award store only gains rows, each for this customer and dated now |
| ConfirmationProperties.HistoryStaysValid | handlers/common/confirmation.go:90-100 | one row per key, and no row is ever scored more often than it is confirmed |
| ConfirmationProperties.NoDuplicateAwards | handlers/common/confirmation.go:114-173 | confirming a primary category never gives a customer the same badge twice, even after a failed write |
| ConfirmationProperties.FirstRow | handlers/common/confirmation.go:75-100 | a customer without rows scores once and ends with exactly that one row |
| ConfirmationProperties.FirstBadges | handlers/common/confirmation.go:114-163 | a customer with no awards and a single row, scored once, earns exactly the category's level-1 badge |
| ConfirmationProperties.FirstConfirmation | handlers/common/confirmation.go:67-112 | a new customer's first confirmation with nothing failing: 100 points, the next time one month on, and the level-1 badge written once |
| ConfirmationProperties.RowsOfHas | handlers/common/confirmation.go:141 | a row of the customer is listed by `GetAll` |
| UserScore.Rank | handlers/userScoreHandler/handler.go:110-118 | the position is 1 plus the number of strictly greater scores; joint iff the score appears more than once |
| UserScore.ListCategories | handlers/userScoreHandler/handler.go:96-104 | one entry per history row in order, as `CategoryEntries` describes (properties in `ResponseListings`) |
| UserScore.ListBadges | handlers/userScoreHandler/handler.go:106-108 | one badge per award in order, as `BadgeEntries` describes (properties in `ResponseListings`) |
| UserScore.GetScore | handlers/userScoreHandler/handler.go:68-118 | the answer is `ScoreResponse`, whose properties are the lemmas below |
| UserScore.CountAboveAppend | handlers/userScoreHandler/handler.go:111-113 | counting greater scores over a concatenation adds the counts of the parts |
| UserScore.CountEqualIsMultiplicity | handlers/userScoreHandler/handler.go:114-116 | the number of equal scores is the multiplicity of the score |
| UserScore.CountAboveIsCardinality | handlers/userScoreHandler/handler.go:112-113 | the number of greater scores is the number of positions holding one |
| UserScore.CountsBounded | handlers/userScoreHandler/handler.go:111-118 | greater plus equal scores never exceed the number of entries |
| UserScore.CountAboveMonotone | handlers/userScoreHandler/handler.go:112-113 | a higher score never ranks below a lower one |
| UserScore.TopIffNoneGreater | handlers/userScoreHandler/handler.go:92-113 | the position is 1 iff no listed score is greater |
| UserScore.RankIgnoresOrder | handlers/userScoreHandler/handler.go:110-118 | two listings with the same scores in any order give the same counts |
| UserScore.JointIffTie | handlers/userScoreHandler/handler.go:114-116 | when the customer's own score is listed, the position is joint iff another entry has the same score |
| UserScore.ResponseErrors | handlers/userScoreHandler/handler.go:68-87 | a failing read is reported, and earlier reads take precedence |
| UserScore.ResponseRanking | handlers/userScoreHandler/handler.go:89-118 | stored score (0 when absent); position from 1 to one past the number of scores; one place per greater score; joint iff listed more than once; nothing behind the next place |
| UserScore.ResponseListings | handlers/userScoreHandler/handler.go:96-108 | one category entry per history row, with its fields copied and its code looked up; one badge per award, from the catalog or the zero badge |
| UserScore.ResponseIgnoresScanOrder | handlers/userScoreHandler/handler.go:110-118 | listing the same scores in another order gives the same place and the same joint flag |
| Payments.Round | providers/directdebits/osProvider.go:84 | the nearest integer, within 0.5 of the input; a tie goes up for a non-negative input and down for a negative one (away from zero); never negative for a non-negative input |
| Payments.PenceRoundTrip | providers/directdebits/osProvider.go:84-124 | converting pence to an amount and back gives the same pence |
| Payments.DecodeAllStep | providers/directdebits/osProvider.go:75-89 | one more record converted: the loop's step |
| Payments.DecodeErrorStays | providers/standingorders/osProvider.go:32-50 | once a prefix fails to convert, the whole list fails with the same error |
| Payments.DecodeAllSpec | providers/directdebits/osProvider.go:75-89 | the conversion succeeds iff every record converts; then one payment per record in order, otherwise the first failing record's error |
| AccountCache.CustomerAccountCache.constructor | providers/common/customerAccountCache.go:15-20 | a new memo is empty |
| AccountCache.CustomerAccountCache.GetPrimaryAccountId | providers/common/customerAccountCache.go:22-40 | the answer, the memo afterwards and whether a request was issued are those of `LookupOutcome` |
| AccountCache.HitAnswersStored | providers/common/customerAccountCache.go:23-25 | a hit answers the stored id with no request, whatever the remote would say |
| AccountCache.MissOutcome | providers/common/customerAccountCache.go:27-39 | a miss always issues the request; it succeeds iff the reply lists an account, and then stores and answers the first one |
| AccountCache.FailureKeepsCache | providers/common/customerAccountCache.go:27-36 | every failure leaves the memo as it was, with the error of the failing step |
| AccountCache.EntriesOnlyAdded | providers/common/customerAccountCache.go:37-38 | stored entries are never changed or removed; only the customer's entry can be added |
| AccountCache.AnswerIsMemoised | providers/common/customerAccountCache.go:23-39 | a successful answer is the id the memo holds afterwards |
| AccountCache.SecondLookupIsHit | providers/common/customerAccountCache.go:23-39 | once an id has been answered, the next lookup gives the same id with no request |
| DirectDebits.IdRoundTrip | providers/directdebits/osProvider.go:51-69 | every storable frequency survives encoding to an id and decoding back |
| DirectDebits.CanonicalIds | providers/directdebits/osProvider.go:51-69 | decoding then encoding gives the id back iff it is 0, 1, 2, 6, 7 or 8 |
| DirectDebits.MonthlyIds | providers/directdebits/osProvider.go:51-69 | ids 3, 4, 5, 6 and 9 all decode to Monthly, which encodes as 6 |
| DirectDebits.KnownIds | providers/directdebits/osProvider.go:51-61 | exactly ids 1 to 9 decode to a frequency, and it is always a storable one |
| DirectDebits.KnownFrequencies | providers/directdebits/osProvider.go:63-69 | a frequency has an id iff it is storable; Daily has none |
| DirectDebits.WeekdayRenumbering | providers/directdebits/osProvider.go:148-152 | the weekday renumbering is a bijection from 0..6 onto 1..7, with Monday first |
| DirectDebits.OutSystemsFrequency | providers/directdebits/osProvider.go:146-158 | weekly schedules carry the weekday and no due day, the others the day of the month; the id decodes back when storable |
| DirectDebits.FirstMatch | providers/directdebits/osProvider.go:99-110 | the index of the first record with the id, or -1 exactly when there is none |
| DirectDebits.SelectAndUpdate | providers/directdebits/osProvider.go:99-129 | the outcome is `PutRequest`: not found, nothing to send, or the updated record |
| DirectDebits.ConvertDirectDebits | providers/directdebits/osProvider.go:75-89 | the loop's result is `DecodeAll` with the direct-debit decoder (properties in `Payments.DecodeAllSpec`) |
| DirectDebits.DirectDebitProvider.constructor | providers/directdebits/osProvider.go:15-26 | the provider uses the memo it is given |
| DirectDebits.DirectDebitProvider.FetchDirectDebits | providers/directdebits/osProvider.go:133-144 | the account lookup's error, or the list reply; the memo evolves as `LookupOutcome` says |
| DirectDebits.DirectDebitProvider.GetDirectDebits | providers/directdebits/osProvider.go:71-90 | the fetch error, or the fetched records converted by `DecodeAll` |
| DirectDebits.DirectDebitProvider.SaveDirectDebit | providers/directdebits/osProvider.go:92-131 | the lookup or fetch error; otherwise `PutRequest`'s outcome, with a PUT sent only for an updated record and its error reported |
| DirectDebits.NotFoundIffNoRecord | providers/directdebits/osProvider.go:99-110 | the save fails with "not found", and sends nothing, iff no record has the payment's id |
| DirectDebits.PutOnlyWhenChanged | providers/directdebits/osProvider.go:112-129 | a PUT is sent iff the first matching record differs, and its body is that record brought up to date |
| DirectDebits.UpdatedAgrees | providers/directdebits/osProvider.go:112-125 | the body agrees with the payment in date and amount, and in frequency when the frequency is storable |
| DirectDebits.UpdatedKeepsOthers | providers/directdebits/osProvider.go:112-125 | every other field of the body is the record's own |
| DirectDebits.UpdatedKeeps | providers/directdebits/osProvider.go:112-125 | an unchanged record is sent back untouched; a frequency that already decodes right is kept |
| DirectDebits.SaveIdempotent | providers/directdebits/osProvider.go:112-129 | saving the same payment again over the record just written sends nothing |
| DirectDebits.DailyNeverSettles | providers/directdebits/osProvider.go:112-125 | a Daily payment always counts as changed, and its PUT carries frequency id 0 |
| DirectDebits.SavedRecordReadsBack | providers/directdebits/osProvider.go:75-125 | a record brought up to date reads back as the saved payment, with the recipient the record already had |
| StandingOrders.FiservRoundTrip | providers/standingorders/osProvider.go:125-146 | every storable frequency survives encoding to a name and decoding back |
| StandingOrders.FiservSynonyms | providers/standingorders/osProvider.go:125-138 | which names decode to Fortnightly, Quarterly and Monthly |
| StandingOrders.DailyNotEncodable | providers/standingorders/osProvider.go:125-146 | Daily is read but has no name to be written under; exactly the storable frequencies have names |
| StandingOrders.DigitsOf | providers/standingorders/osProvider.go:60 | the decimal digits of a number: at least one, all digits |
| StandingOrders.DigitsOfValue | providers/standingorders/osProvider.go:36-39 | the digits of n denote n |
| StandingOrders.LeadingZerosValue | providers/standingorders/osProvider.go:36-39 | leading zeros do not change the value |
| StandingOrders.PaddedMagnitude | providers/standingorders/osProvider.go:60 | a 64-bit magnitude has at most 19 digits, and padding gives the width exactly without changing the value |
| StandingOrders.PaymentIdRoundTrip | providers/standingorders/osProvider.go:36-60 | every 64-bit id formats as 22 characters (all digits when non-negative), and `Atoi` reads the id back |
| StandingOrders.PaymentIdsDistinct | providers/standingorders/osProvider.go:60 | distinct 64-bit ids format to distinct strings |
| StandingOrders.FirstMatch | providers/standingorders/osProvider.go:60-72 | the index of the first record with the id string, or -1 exactly when there is none |
| StandingOrders.SelectAndUpdate | providers/standingorders/osProvider.go:60-88 | the outcome is `PutRequest`: not found, nothing to send, or the updated record |
| StandingOrders.ConvertStandingOrders | providers/standingorders/osProvider.go:32-50 | the loop's result is `DecodeAll` with the standing-order decoder (properties in `Payments.DecodeAllSpec`) |
| StandingOrders.StandingOrderProvider.constructor | providers/standingorders/osProvider.go:15-26 | the provider uses the memo it is given |
| StandingOrders.StandingOrderProvider.FetchStandingOrders | providers/standingorders/osProvider.go:112-123 | the account lookup's error, or the list reply; the memo evolves as `LookupOutcome` says |
| StandingOrders.StandingOrderProvider.GetStandingOrders | providers/standingorders/osProvider.go:28-51 | the fetch error, or the fetched records converted by `DecodeAll` |
| StandingOrders.StandingOrderProvider.SaveStandingOrder | providers/standingorders/osProvider.go:53-90 | the lookup or fetch error; otherwise `PutRequest`'s outcome, with a PUT sent only for an updated record and its error reported |
| StandingOrders.NotFoundIffNoRecord | providers/standingorders/osProvider.go:60-72 | the save fails with "not found", and sends nothing, iff no record carries the padded id |
| StandingOrders.SelectedRecordHasPaymentId | providers/standingorders/osProvider.go:36-72 | the selected record is one the conversion reads with the payment's own id |
| StandingOrders.PutOnlyWhenChanged | providers/standingorders/osProvider.go:74-88 | a PUT is sent iff the first matching record differs, and its body is that record brought up to date |
| StandingOrders.UpdatedAgrees | providers/standingorders/osProvider.go:74-84 | a differing schedule is rewritten as a whole; the body agrees with the payment in date, amount and storable frequency; other fields are kept |
| StandingOrders.UpdatedKeeps | providers/standingorders/osProvider.go:74-84 | an unchanged record is sent back untouched |
| StandingOrders.SaveIdempotent | providers/standingorders/osProvider.go:74-88 | saving the same payment again over the record just written sends nothing |
| StandingOrders.DateChangeRenamesFrequency | providers/standingorders/osProvider.go:74-80 | moving the date rewrites the name: "TwiceMonthly" becomes "BiWeekly", and "Daily" becomes the empty name |
| StandingOrders.SavedRecordReadsBack | providers/standingorders/osProvider.go:32-84 | a record brought up to date reads back as the saved payment, with the payee the record already had |
| ContactDetailsProvider.AddressRoundTrip | providers/contactdetails/osProvider.go:67-102 | reading back a written address gives the address that was written |
| ContactDetailsProvider.AddressRecordRoundTrip | providers/contactdetails/osProvider.go:93-105 | writing a read address gives the record back iff it is a UK address with no time at the address recorded |
| ContactDetailsProvider.AddressFieldMap | providers/contactdetails/osProvider.go:93-109 | the path, the field renaming (flat to apartment, street name to street, town to city) and the fixed country and times |
| ContactDetailsProvider.AddressRecordInjective | providers/contactdetails/osProvider.go:94-102 | two addresses are written identically only if they are equal |
| ContactDetailsProvider.ContactDetailsFields | providers/contactdetails/osProvider.go:58-75 | a successful read places each field by position: mobile as mobile, home as home, and the address through `ReadAddress` |
| ContactDetailsProvider.ContactDetailsFailure | providers/contactdetails/osProvider.go:50-57 | a failed request or decoding gives the zero details and passes the error on |
| ContactDetailsProvider.SavedAddressReadsBack | providers/contactdetails/osProvider.go:58-109 | an address saved and then read back is the one saved |

## Left out

- HTTP handling, request authentication, routing and JSON responses (`HandleConfirmRequest`, the method and authentication checks of `GetScore`) are not modelled. The model starts once the customer's cif is known.
- The DynamoDB stores are values (`Repositories.Tables`). Their marshalling, key attributes and scans are not modelled. A failing store call is named in a `failing` set, so the same call fails every time.
- Time: the three `time.Now()` calls of one confirmation are one `now` parameter. `AddDate(0, 1, 0)` is a `MonthAdder` parameter that is assumed to move strictly forward; calendar arithmetic is not modelled.
- `time.Parse` and `Format` with the `2006-01-02` layout are the `parse` parameter and the `Date` view (rendering, weekday, day of month). The read-back lemmas require that `parse` gives back what `Format` rendered.
- Amounts are exact reals. float64 rounding error in `amount * 100` and `pence * 0.01` is not modelled.
- Upstream requests and JSON decoding are oracles: `AccountsReply`, the `fetched` list reply and the `putError` of a PUT. The PUT's response body is ignored, as in the source. The text of error messages is reduced to the `ProviderError` kind.
- UserScore.GetScore: the all-scores scan is the `allScores` parameter. It is not tied to the score store, so the model does not state that the customer's own score is among the listed ones; `JointIffTie` covers that case.
- Concurrency between handlers sharing a memo or a store is not modelled.
- `SaveMobileNumber`, `SaveHomeNumber` and `SaveEmailAddress` are not modelled. Each only issues a PUT to a URL whose query string is escaped by the standard library, and that escaping is not part of this model.
- The incomes provider and the payment handlers that call the providers are not part of this model.
- ContactDetailsProvider.SavedAddressReadsBack: the upstream customer record holds its address inside a wrapper object, and the written address is a bare address record. The model flattens the wrapper into `currentAddress`, so it assumes the upstream returns the written address under that wrapper.
- Confirmation.ConfirmationHandler.BadgeGetter: a failure is keyed by the category code the read is made for, so the model can fail the category read and the ALL read independently. The real store has one `Get`.
- UserScore.ResponseListings: nil and empty slices are not told apart. The Go response has nil badges when the customer has none.
- Scores, counters and the minimum start value 1000 are unbounded integers; 64-bit overflow is not modelled. `StandingOrders.Atoi` does model the 64-bit range of `strconv.Atoi`.
- ConfirmationProperties.NoDuplicateAwards: covers primary categories only. Confirming ALL directly, which no handler does, reads ALL badges twice.
- Confirmation.ConfirmationHandler.ScoreAndBadges and DirectDebits.SelectAndUpdate / StandingOrders.SelectAndUpdate are splits of one Go function each, made so each part has its own contract.
