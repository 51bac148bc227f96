/**
 * The direct debit provider: translation between the handlers' payments and
 * the upstream system's direct debit records, and the read-compare-write of
 * `SaveDirectDebit`.
 */
module DirectDebits {
  import opened Wrappers
  import opened Payments
  import opened AccountCache

  /** The upstream frequency block: an id, and a due day or a weekday depending on the id. */
  datatype OsFrequency = OsFrequency(dueDay: int, frequencyId: int, dayOfTheWeek: int)

  datatype OsDirectDebit = OsDirectDebit(
    amount: real,
    paymentCategoryId: int,
    paymentTypeId: int,
    companyId: int,
    description: string,
    directDebitId: int,
    dueDate: string,
    finalPaymentDate: string,
    frequency: OsFrequency,
    noOfPayments: int,
    reference: string,
    status: string)

  const FrequencyFromId: map<int, Frequency> := map[
    1 := Weekly, 2 := Fortnightly, 3 := Monthly, 4 := Monthly, 5 := Monthly,
    6 := Monthly, 7 := Quarterly, 8 := Annually, 9 := Monthly]

  const FrequencyToId: map<Frequency, int> := map[
    Weekly := 1, Fortnightly := 2, Monthly := 6, Quarterly := 7, Annually := 8]

  /** `osFrequencyMapFromId[id]`: the empty frequency for an unknown id. */
  function FromId(id: int): Frequency
  {
    if id in FrequencyFromId then FrequencyFromId[id] else ""
  }

  /** `osFrequencyMapToId[f]`: 0 for a frequency the upstream system has no id for. */
  function ToId(f: Frequency): int
  {
    if f in FrequencyToId then FrequencyToId[f] else 0
  }

  /** Go's weekday (0 is Sunday) renumbered so that Monday is 1 and Sunday is 7. */
  function MondayFirst(weekday: int): int
  {
    (weekday + 6) % 7 + 1
  }

  /** `mapFrequencyToOutSystems`: weekly schedules carry a weekday, the others a day of the month. */
  function MapFrequencyToOutSystems(freq: Frequency, dueDate: Date): OsFrequency
  {
    if freq == Weekly || freq == Fortnightly then
      OsFrequency(0, ToId(freq), MondayFirst(dueDate.weekday))
    else
      OsFrequency(dueDate.dayOfMonth, ToId(freq), 0)
  }

  // The frequency tables.

  /** Every storable frequency survives encoding and decoding. */
  lemma IdRoundTrip(f: Frequency)
    requires Storable(f)
    ensures FromId(ToId(f)) == f
  {
  }

  /** Decoding then encoding gives back only the five canonical ids, and 0, the "no id" of both tables. */
  lemma CanonicalIds(id: int)
    ensures ToId(FromId(id)) == id <==> id in {0, 1, 2, 6, 7, 8}
  {
    if id !in FrequencyFromId {
      assert FromId(id) == "" && ToId("") == 0;
    }
  }

  /** Five ids all decode to Monthly, which encodes as 6. */
  lemma MonthlyIds(id: int)
    ensures FromId(id) == Monthly <==> id in {3, 4, 5, 6, 9}
    ensures ToId(Monthly) == 6
  {
  }

  /** Exactly the ids 1 to 9 decode to a frequency, and it is always a storable one. */
  lemma KnownIds(id: int)
    ensures FromId(id) != "" <==> 1 <= id <= 9
    ensures FromId(id) != "" ==> Storable(FromId(id))
  {
  }

  /** A frequency has an id exactly when it is storable; Daily has none. */
  lemma KnownFrequencies(f: Frequency)
    ensures ToId(f) != 0 <==> Storable(f)
    ensures ToId(Daily) == 0
  {
  }

  /** The weekday renumbering is a bijection from 0..6 onto 1..7, Monday first. */
  lemma WeekdayRenumbering()
    ensures forall wd | 0 <= wd <= 6 :: 1 <= MondayFirst(wd) <= 7
    ensures MondayFirst(1) == 1 && MondayFirst(0) == 7
    ensures forall a, b | 0 <= a <= 6 && 0 <= b <= 6 && MondayFirst(a) == MondayFirst(b) :: a == b
    ensures forall d | 1 <= d <= 7 :: MondayFirst(d % 7) == d
  {
  }

  /**
   * The upstream frequency block: weekly schedules name the weekday and no
   * due day, the others the day of the month and no weekday; the id decodes
   * back to the frequency whenever the frequency is storable.
   */
  lemma OutSystemsFrequency(freq: Frequency, dueDate: Date)
    ensures var r := MapFrequencyToOutSystems(freq, dueDate);
      && r.frequencyId == ToId(freq)
      && (Storable(freq) ==> FromId(r.frequencyId) == freq)
      && (freq == Weekly || freq == Fortnightly ==>
            r.dueDay == 0 && 1 <= r.dayOfTheWeek <= 7 && r.dayOfTheWeek == MondayFirst(dueDate.weekday))
      && (freq != Weekly && freq != Fortnightly ==>
            r.dueDay == dueDate.dayOfMonth && r.dayOfTheWeek == 0)
  {
  }

  // Selecting the record and detecting a change.

  /** The index of the first record with the payment's id, or -1. */
  function FirstMatch(dds: seq<OsDirectDebit>, id: int): (k: int)
    ensures -1 <= k < |dds|
    ensures k >= 0 ==> dds[k].directDebitId == id && forall j | 0 <= j < k :: dds[j].directDebitId != id
    ensures k == -1 <==> forall j | 0 <= j < |dds| :: dds[j].directDebitId != id
  {
    if dds == [] then -1
    else if dds[0].directDebitId == id then 0
    else
      var k := FirstMatch(dds[1..], id);
      if k == -1 then -1 else k + 1
  }

  /** Whether the record differs from the payment in due date, amount or decoded frequency. */
  predicate Changed(dd: OsDirectDebit, p: Payment)
  {
    dd.dueDate != p.dueDate.formatted
    || AmountPence(dd.amount) != p.amountPence
    || FromId(dd.frequency.frequencyId) != p.frequency
  }

  /** The record with each differing field replaced from the payment. */
  function Updated(dd: OsDirectDebit, p: Payment): OsDirectDebit
  {
    var dd1 := if FromId(dd.frequency.frequencyId) != p.frequency
      then dd.(frequency := MapFrequencyToOutSystems(p.frequency, p.dueDate)) else dd;
    var dd2 := if p.dueDate.formatted != dd1.dueDate then dd1.(dueDate := p.dueDate.formatted) else dd1;
    if AmountPence(dd2.amount) != p.amountPence then dd2.(amount := PenceAmount(p.amountPence)) else dd2
  }

  /**
   * What saving `p` against the fetched records does: a "not found" error, no
   * request (`None`), or a PUT of the updated record.
   */
  function PutRequest(dds: seq<OsDirectDebit>, p: Payment): Result<Option<OsDirectDebit>, ProviderError>
  {
    var k := FirstMatch(dds, p.id);
    if k == -1 then Err(NotFound(p.id))
    else if Changed(dds[k], p) then Ok(Some(Updated(dds[k], p)))
    else Ok(None)
  }

  /** Lines 99-129 after the fetch: the search loop with its `found` flag, then the field updates. */
  method SelectAndUpdate(osDDs: seq<OsDirectDebit>, payment: Payment)
    returns (r: Result<Option<OsDirectDebit>, ProviderError>)
    ensures r == PutRequest(osDDs, payment)
  {
    var found := false;
    var osDD: OsDirectDebit;
    var i := 0;
    while i < |osDDs|
      invariant 0 <= i <= |osDDs|
      invariant !found
      invariant forall j | 0 <= j < i :: osDDs[j].directDebitId != payment.id
    {
      if osDDs[i].directDebitId == payment.id {
        osDD := osDDs[i];
        found := true;
        break;
      }
      i := i + 1;
    }
    if !found {
      return Err(NotFound(payment.id));
    }
    assert FirstMatch(osDDs, payment.id) == i;
    ghost var original := osDD;

    var changed := osDD.dueDate != payment.dueDate.formatted || AmountPence(osDD.amount) != payment.amountPence;
    if FromId(osDD.frequency.frequencyId) != payment.frequency {
      osDD := osDD.(frequency := MapFrequencyToOutSystems(payment.frequency, payment.dueDate));
      changed := true;
    }
    var formattedDate := payment.dueDate.formatted;
    if formattedDate != osDD.dueDate {
      osDD := osDD.(dueDate := formattedDate);
      changed := true;
    }
    if AmountPence(osDD.amount) != payment.amountPence {
      osDD := osDD.(amount := PenceAmount(payment.amountPence));
      changed := true;
    }
    assert changed == Changed(original, payment);
    if changed {
      return Ok(Some(osDD));
    }
    return Ok(None);
  }

  // Reading the records back as payments.

  /** One upstream record as a payment; `parse` is `time.Parse` with the `2006-01-02` layout. */
  function DecodeDirectDebit(dd: OsDirectDebit, parse: string -> Option<Date>): Result<Payment, ProviderError>
  {
    match parse(dd.dueDate)
    case None => Err(BadDate(dd.dueDate))
    case Some(due) =>
      Ok(Payment(dd.directDebitId, dd.companyId, dd.description, due,
                 FromId(dd.frequency.frequencyId), AmountPence(dd.amount)))
  }

  /** The decoder the conversion loop applies to each record. */
  function DirectDebitDecoder(parse: string -> Option<Date>): OsDirectDebit -> Result<Payment, ProviderError>
  {
    dd => DecodeDirectDebit(dd, parse)
  }

  /** The conversion loop of `GetDirectDebits` (lines 75-89). */
  method ConvertDirectDebits(osDDs: seq<OsDirectDebit>, parse: string -> Option<Date>)
    returns (r: Result<seq<Payment>, ProviderError>)
    ensures r == DecodeAll(osDDs, DirectDebitDecoder(parse))
  {
    var results: seq<Payment> := [];
    var i := 0;
    while i < |osDDs|
      invariant 0 <= i <= |osDDs|
      invariant DecodeAll(osDDs[..i], DirectDebitDecoder(parse)) == Ok(results)
    {
      var osDD := osDDs[i];
      DecodeAllStep(osDDs, i, DirectDebitDecoder(parse), results);
      var dueDate := parse(osDD.dueDate);
      if dueDate.None? {
        DecodeErrorStays(osDDs, i + 1, DirectDebitDecoder(parse));
        return Err(BadDate(osDD.dueDate));
      }
      results := results + [Payment(osDD.directDebitId, osDD.companyId, osDD.description, dueDate.value,
                                    FromId(osDD.frequency.frequencyId), AmountPence(osDD.amount))];
      i := i + 1;
    }
    assert osDDs[..i] == osDDs;
    return Ok(results);
  }

  /** What `getOutsystemsDirectDebits` yields: the account lookup's error, or the list request's answer. */
  function Fetched(cache: map<string, string>, cif: string, accounts: AccountsReply,
                   fetched: Result<seq<OsDirectDebit>, ProviderError>): Result<seq<OsDirectDebit>, ProviderError>
  {
    var account := LookupOutcome(cache, cif, accounts).0;
    if account.Err? then Err(account.error) else fetched
  }

  class DirectDebitProvider {
    const accountCache: CustomerAccountCache

    constructor (cache: CustomerAccountCache)
      ensures accountCache == cache
    {
      accountCache := cache;
    }

    /**
     * `getOutsystemsDirectDebits`. The upstream answers are oracles: `accounts`
     * for the account-id request, `fetched` for the list request and its decoding.
     */
    method FetchDirectDebits(cif: string, accounts: AccountsReply, fetched: Result<seq<OsDirectDebit>, ProviderError>)
      returns (r: Result<seq<OsDirectDebit>, ProviderError>)
      modifies accountCache
      ensures accountCache.cache == LookupOutcome(old(accountCache.cache), cif, accounts).1
      ensures r == Fetched(old(accountCache.cache), cif, accounts, fetched)
    {
      var accountId, _ := accountCache.GetPrimaryAccountId(cif, accounts);
      if accountId.Err? {
        return Err(accountId.error);
      }
      return fetched;
    }

    /** `GetDirectDebits`: the fetched records as payments. */
    method GetDirectDebits(cif: string, accounts: AccountsReply, fetched: Result<seq<OsDirectDebit>, ProviderError>,
                           parse: string -> Option<Date>)
      returns (r: Result<seq<Payment>, ProviderError>)
      modifies accountCache
      ensures accountCache.cache == LookupOutcome(old(accountCache.cache), cif, accounts).1
      ensures r == match Fetched(old(accountCache.cache), cif, accounts, fetched)
        case Err(e) => Err(e)
        case Ok(dds) => DecodeAll(dds, DirectDebitDecoder(parse))
    {
      var osDDs := FetchDirectDebits(cif, accounts, fetched);
      if osDDs.Err? {
        return Err(osDDs.error);
      }
      r := ConvertDirectDebits(osDDs.value, parse);
    }

    /**
     * `SaveDirectDebit`: look the account up, fetch the records (which looks
     * the account up again, now from the memo), select and compare, and PUT
     * the record if it changed. `putError` is the PUT's outcome; `put` is the
     * body of the PUT, if one is issued.
     */
    method SaveDirectDebit(cif: string, payment: Payment, accounts: AccountsReply,
                           fetched: Result<seq<OsDirectDebit>, ProviderError>, putError: Option<ProviderError>)
      returns (err: Option<ProviderError>, put: Option<OsDirectDebit>)
      modifies accountCache
      ensures accountCache.cache == LookupOutcome(old(accountCache.cache), cif, accounts).1
      ensures match Fetched(old(accountCache.cache), cif, accounts, fetched)
        case Err(e) => err == Some(e) && put == None
        case Ok(dds) =>
          match PutRequest(dds, payment)
          case Err(e) => err == Some(e) && put == None
          case Ok(None) => err == None && put == None
          case Ok(Some(body)) => err == putError && put == Some(body)
    {
      put := None;
      var accountId, _ := accountCache.GetPrimaryAccountId(cif, accounts);
      if accountId.Err? {
        return Some(accountId.error), put;
      }
      var osDDs := FetchDirectDebits(cif, accounts, fetched);
      if osDDs.Err? {
        return Some(osDDs.error), put;
      }
      var request := SelectAndUpdate(osDDs.value, payment);
      if request.Err? {
        return Some(request.error), put;
      }
      if request.value.Some? {
        put := request.value;
        return putError, put;
      }
      return None, put;
    }
  }

  // Properties of a save.

  /** The save fails with "not found", and sends nothing, exactly when no record has the payment's id. */
  lemma NotFoundIffNoRecord(dds: seq<OsDirectDebit>, p: Payment)
    ensures PutRequest(dds, p) == Err(NotFound(p.id)) <==>
      forall j | 0 <= j < |dds| :: dds[j].directDebitId != p.id
    ensures PutRequest(dds, p).Err? ==> PutRequest(dds, p) == Err(NotFound(p.id))
  {
  }

  /**
   * A PUT is sent exactly when the first record with the payment's id differs,
   * and its body is that record brought up to date.
   */
  lemma PutOnlyWhenChanged(dds: seq<OsDirectDebit>, p: Payment)
    requires PutRequest(dds, p).Ok?
    ensures var k := FirstMatch(dds, p.id);
      && 0 <= k < |dds| && dds[k].directDebitId == p.id
      && (PutRequest(dds, p).value.Some? <==> Changed(dds[k], p))
      && (PutRequest(dds, p).value.Some? ==> PutRequest(dds, p).value.value == Updated(dds[k], p))
  {
  }

  /**
   * The body sent agrees with the payment in date and amount, and in frequency
   * when the frequency is storable.
   */
  lemma UpdatedAgrees(dd: OsDirectDebit, p: Payment)
    ensures var u := Updated(dd, p);
      && u.dueDate == p.dueDate.formatted
      && AmountPence(u.amount) == p.amountPence
      && (Storable(p.frequency) ==> FromId(u.frequency.frequencyId) == p.frequency)
  {
    PenceRoundTrip(p.amountPence);
    if Storable(p.frequency) && FromId(dd.frequency.frequencyId) != p.frequency {
      OutSystemsFrequency(p.frequency, p.dueDate);
    }
  }

  /** Every field of the body other than due date, amount and frequency is the record's own. */
  lemma UpdatedKeepsOthers(dd: OsDirectDebit, p: Payment)
    ensures Updated(dd, p).(amount := dd.amount, dueDate := dd.dueDate, frequency := dd.frequency) == dd
  {
  }

  /** An unchanged record is sent back untouched, and a frequency that already decodes right is kept. */
  lemma UpdatedKeeps(dd: OsDirectDebit, p: Payment)
    ensures !Changed(dd, p) ==> Updated(dd, p) == dd
    ensures FromId(dd.frequency.frequencyId) == p.frequency ==> Updated(dd, p).frequency == dd.frequency
  {
  }

  /** Saving the same payment again over the record just written sends nothing. */
  lemma SaveIdempotent(dd: OsDirectDebit, p: Payment)
    requires Storable(p.frequency)
    ensures !Changed(Updated(dd, p), p)
  {
    UpdatedAgrees(dd, p);
  }

  /** A Daily payment can never be stored as such: every save sends a PUT with frequency id 0. */
  lemma DailyNeverSettles(dd: OsDirectDebit, p: Payment)
    requires p.frequency == Daily
    ensures Changed(dd, p)
    ensures Updated(dd, p).frequency.frequencyId == 0
  {
    KnownIds(dd.frequency.frequencyId);
  }

  /**
   * A record brought up to date reads back as the payment that was saved,
   * with the recipient the record already had, provided the date layout
   * parses back what it formats.
   */
  lemma SavedRecordReadsBack(dd: OsDirectDebit, p: Payment, parse: string -> Option<Date>)
    requires dd.directDebitId == p.id && Storable(p.frequency)
    requires parse(p.dueDate.formatted) == Some(p.dueDate)
    ensures DecodeDirectDebit(Updated(dd, p), parse) == Ok(p.(recipientId := dd.companyId, recipientName := dd.description))
  {
    UpdatedAgrees(dd, p);
  }
}
