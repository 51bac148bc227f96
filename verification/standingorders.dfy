/**
 * The standing order provider: the upstream system's frequency names, its
 * 22-digit payment ids, the conversion of its records to payments, and the
 * read-compare-write of `SaveStandingOrder`.
 */
module StandingOrders {
  import opened Wrappers
  import opened Payments
  import opened AccountCache

  datatype OsPayee = OsPayee(
    payeeId: string,
    name: string,
    sortCode: string,
    accountNumber: string,
    reference: string,
    nickname: string)

  datatype OsStandingOrder = OsStandingOrder(
    paymentId: string,
    amount: real,
    paymentDate: string,
    paymentReference: string,
    endDate: string,
    paymentFrequency: string,
    paymentFrequencyDescription: string,
    payee: OsPayee)

  const FrequencyFromFiserv: map<string, Frequency> := map[
    "Daily" := Daily,
    "Weekly" := Weekly,
    "BiWeekly" := Fortnightly,
    "TwiceMonthly" := Fortnightly,
    "Monthly" := Monthly,
    "FourWeeks" := Monthly,
    "BiMonthly" := Monthly,
    "FirstOfMonth" := Monthly,
    "Quarterly" := Quarterly,
    "SemiAnnually" := Quarterly,
    "Annual" := Annually,
    "EndOfMonth" := Monthly]

  const FrequencyToFiserv: map<Frequency, string> := map[
    Weekly := "Weekly",
    Fortnightly := "BiWeekly",
    Monthly := "Monthly",
    Quarterly := "Quarterly",
    Annually := "Annual"]

  /** `osFrequencyMapFromFiserv[name]`: the empty frequency for an unknown name. */
  function FromFiserv(name: string): Frequency
  {
    if name in FrequencyFromFiserv then FrequencyFromFiserv[name] else ""
  }

  /** `osFrequencyMapToFiserv[f]`: the empty name for a frequency with no entry. */
  function ToFiserv(f: Frequency): string
  {
    if f in FrequencyToFiserv then FrequencyToFiserv[f] else ""
  }

  // The frequency tables.

  /** Every storable frequency survives encoding and decoding. */
  lemma FiservRoundTrip(f: Frequency)
    requires Storable(f)
    ensures FromFiserv(ToFiserv(f)) == f
  {
  }

  /** Several names decode to the same frequency. */
  lemma FiservSynonyms(name: string)
    ensures FromFiserv(name) == Fortnightly <==> name in {"BiWeekly", "TwiceMonthly"}
    ensures FromFiserv(name) == Quarterly <==> name in {"Quarterly", "SemiAnnually"}
    ensures FromFiserv(name) == Monthly <==>
      name in {"Monthly", "FourWeeks", "BiMonthly", "FirstOfMonth", "EndOfMonth"}
  {
  }

  /** Daily is read from the upstream system but cannot be written back: it has no name. */
  lemma DailyNotEncodable()
    ensures FromFiserv("Daily") == Daily
    ensures ToFiserv(Daily) == ""
    ensures forall f :: ToFiserv(f) != "" <==> Storable(f)
  {
  }

  // Payment ids: `%022d` and `strconv.Atoi` on 64-bit integers.

  const MinInt: int := -0x8000_0000_0000_0000
  const MaxInt: int := 0x7FFF_FFFF_FFFF_FFFF

  predicate IsInt64(n: int)
  {
    MinInt <= n <= MaxInt
  }

  predicate IsDigit(c: char)
  {
    '0' <= c <= '9'
  }

  predicate AllDigits(s: string)
  {
    forall i | 0 <= i < |s| :: IsDigit(s[i])
  }

  /** The decimal digits of `n`, without leading zeros. */
  function DigitsOf(n: nat): (s: string)
    ensures |s| >= 1 && AllDigits(s)
  {
    if n < 10 then [('0' as int + n) as char]
    else DigitsOf(n / 10) + [('0' as int + n % 10) as char]
  }

  /** Left padding with zeros up to `width` characters; a longer string is left as it is. */
  function ZeroPad(s: string, width: nat): string
  {
    if |s| >= width then s else seq(width - |s|, _ => '0') + s
  }

  /** `fmt.Sprintf("%022d", id)`: the sign counts towards the width. */
  function FormatPaymentId(id: int): string
  {
    if id >= 0 then ZeroPad(DigitsOf(id), 22) else "-" + ZeroPad(DigitsOf(-id), 21)
  }

  /** The number a string of decimal digits denotes. */
  function DigitsValue(s: string): nat
    requires AllDigits(s)
  {
    if s == [] then 0 else 10 * DigitsValue(s[..|s| - 1]) + (s[|s| - 1] as int - '0' as int)
  }

  /** `strconv.Atoi`: an optional sign and at least one digit, within the 64-bit range. */
  function Atoi(s: string): Option<int>
  {
    var negative := |s| > 0 && s[0] == '-';
    var body := if |s| > 0 && (s[0] == '-' || s[0] == '+') then s[1..] else s;
    if body == [] || !AllDigits(body) then None
    else
      var magnitude: int := DigitsValue(body);
      var v := if negative then -magnitude else magnitude;
      if IsInt64(v) then Some(v) else None
  }

  function Pow10(k: nat): nat
  {
    if k == 0 then 1 else 10 * Pow10(k - 1)
  }

  lemma {:induction false} DigitsOfValue(n: nat)
    ensures DigitsValue(DigitsOf(n)) == n
  {
    if n >= 10 {
      var s := DigitsOf(n);
      assert s[..|s| - 1] == DigitsOf(n / 10);
      DigitsOfValue(n / 10);
    }
  }

  lemma {:induction false} DigitsOfLength(n: nat, k: nat)
    requires 1 <= k && n < Pow10(k)
    ensures |DigitsOf(n)| <= k
  {
    if n >= 10 {
      assert n / 10 < Pow10(k - 1);
      DigitsOfLength(n / 10, k - 1);
    }
  }

  lemma {:induction false} ZerosValue(k: nat)
    ensures AllDigits(seq(k, _ => '0')) && DigitsValue(seq(k, _ => '0')) == 0
  {
    if k > 0 {
      assert seq(k, _ => '0')[..k - 1] == seq(k - 1, _ => '0');
      ZerosValue(k - 1);
    }
  }

  /** Leading zeros do not change the value. */
  lemma {:induction false} LeadingZerosValue(k: nat, s: string)
    requires AllDigits(s)
    ensures AllDigits(seq(k, _ => '0') + s)
    ensures DigitsValue(seq(k, _ => '0') + s) == DigitsValue(s)
  {
    var z := seq(k, _ => '0');
    if s == [] {
      assert z + s == z;
      ZerosValue(k);
    } else {
      var t := z + s;
      assert t[..|t| - 1] == z + s[..|s| - 1];
      LeadingZerosValue(k, s[..|s| - 1]);
    }
  }

  /** A magnitude of at most 2^63 has at most 19 digits and pads to the requested width. */
  lemma PaddedMagnitude(n: nat, width: nat)
    requires n <= 0x8000_0000_0000_0000 && width >= 19
    ensures |ZeroPad(DigitsOf(n), width)| == width
    ensures AllDigits(ZeroPad(DigitsOf(n), width))
    ensures DigitsValue(ZeroPad(DigitsOf(n), width)) == n
    ensures |DigitsOf(n)| <= 19
    ensures |DigitsOf(n)| < width ==> ZeroPad(DigitsOf(n), width)[0] == '0'
  {
    assert Pow10(10) == 10_000_000_000;
    DigitsOfLength(n, 19);
    DigitsOfValue(n);
    LeadingZerosValue(width - |DigitsOf(n)|, DigitsOf(n));
  }

  /**
   * Every 64-bit id formats as 22 characters (all digits when the id is not
   * negative), and `Atoi` reads the id back.
   */
  lemma PaymentIdRoundTrip(id: int)
    requires IsInt64(id)
    ensures |FormatPaymentId(id)| == 22
    ensures id >= 0 ==> AllDigits(FormatPaymentId(id))
    ensures Atoi(FormatPaymentId(id)) == Some(id)
  {
    var s := FormatPaymentId(id);
    if id >= 0 {
      PaddedMagnitude(id, 22);
      assert s[0] == '0';
    } else {
      PaddedMagnitude(-id, 21);
      assert s[1..] == ZeroPad(DigitsOf(-id), 21);
    }
  }

  /** Distinct 64-bit ids format to distinct strings. */
  lemma PaymentIdsDistinct(a: int, b: int)
    requires IsInt64(a) && IsInt64(b) && a != b
    ensures FormatPaymentId(a) != FormatPaymentId(b)
  {
    PaymentIdRoundTrip(a);
    PaymentIdRoundTrip(b);
  }

  // Selecting the record and detecting a change.

  /** The index of the first record whose id string is `id`, or -1. */
  function FirstMatch(sos: seq<OsStandingOrder>, id: string): (k: int)
    ensures -1 <= k < |sos|
    ensures k >= 0 ==> sos[k].paymentId == id && forall j | 0 <= j < k :: sos[j].paymentId != id
    ensures k == -1 <==> forall j | 0 <= j < |sos| :: sos[j].paymentId != id
  {
    if sos == [] then -1
    else if sos[0].paymentId == id then 0
    else
      var k := FirstMatch(sos[1..], id);
      if k == -1 then -1 else k + 1
  }

  /** Whether the record's date or decoded frequency differs from the payment's. */
  predicate ScheduleDiffers(so: OsStandingOrder, p: Payment)
  {
    so.paymentDate != p.dueDate.formatted || FromFiserv(so.paymentFrequency) != p.frequency
  }

  predicate Changed(so: OsStandingOrder, p: Payment)
  {
    ScheduleDiffers(so, p) || AmountPence(so.amount) != p.amountPence
  }

  /** The record with its schedule rewritten as a whole if it differs, and its amount if that differs. */
  function Updated(so: OsStandingOrder, p: Payment): OsStandingOrder
  {
    var so1 := if ScheduleDiffers(so, p)
      then so.(paymentFrequency := ToFiserv(p.frequency), paymentDate := p.dueDate.formatted) else so;
    if AmountPence(so1.amount) != p.amountPence then so1.(amount := PenceAmount(p.amountPence)) else so1
  }

  /**
   * What saving `p` against the fetched records does: a "not found" error, no
   * request (`None`), or a PUT of the updated record.
   */
  function PutRequest(sos: seq<OsStandingOrder>, p: Payment): Result<Option<OsStandingOrder>, ProviderError>
  {
    var k := FirstMatch(sos, FormatPaymentId(p.id));
    if k == -1 then Err(NotFound(p.id))
    else if Changed(sos[k], p) then Ok(Some(Updated(sos[k], p)))
    else Ok(None)
  }

  /** Lines 60-88 after the fetch: the search loop on the padded id, then the field updates. */
  method SelectAndUpdate(osSOs: seq<OsStandingOrder>, payment: Payment)
    returns (r: Result<Option<OsStandingOrder>, ProviderError>)
    ensures r == PutRequest(osSOs, payment)
  {
    var id := FormatPaymentId(payment.id);
    var found := false;
    var osSO: OsStandingOrder;
    var i := 0;
    while i < |osSOs|
      invariant 0 <= i <= |osSOs|
      invariant !found
      invariant forall j | 0 <= j < i :: osSOs[j].paymentId != id
    {
      if osSOs[i].paymentId == id {
        osSO := osSOs[i];
        found := true;
        break;
      }
      i := i + 1;
    }
    if !found {
      return Err(NotFound(payment.id));
    }
    assert FirstMatch(osSOs, id) == i;
    ghost var original := osSO;

    var formattedDate := payment.dueDate.formatted;
    var changed := false;
    if osSO.paymentDate != formattedDate || FromFiserv(osSO.paymentFrequency) != payment.frequency {
      osSO := osSO.(paymentFrequency := ToFiserv(payment.frequency), paymentDate := formattedDate);
      changed := true;
    }
    if AmountPence(osSO.amount) != payment.amountPence {
      osSO := osSO.(amount := PenceAmount(payment.amountPence));
      changed := true;
    }
    assert changed == Changed(original, payment);
    if changed {
      return Ok(Some(osSO));
    }
    return Ok(None);
  }

  // Reading the records back as payments.

  /**
   * One upstream record as a payment: the date, the payment id and the payee
   * id must all parse, checked in that order. `parse` is `time.Parse` with the
   * `2006-01-02` layout.
   */
  function DecodeStandingOrder(so: OsStandingOrder, parse: string -> Option<Date>): Result<Payment, ProviderError>
  {
    match parse(so.paymentDate)
    case None => Err(BadDate(so.paymentDate))
    case Some(due) =>
      match Atoi(so.paymentId)
      case None => Err(BadNumber(so.paymentId))
      case Some(id) =>
        match Atoi(so.payee.payeeId)
        case None => Err(BadNumber(so.payee.payeeId))
        case Some(payeeId) =>
          Ok(Payment(id, payeeId, so.payee.name, due, FromFiserv(so.paymentFrequency), AmountPence(so.amount)))
  }

  /** The decoder the conversion loop applies to each record. */
  function StandingOrderDecoder(parse: string -> Option<Date>): OsStandingOrder -> Result<Payment, ProviderError>
  {
    so => DecodeStandingOrder(so, parse)
  }

  /** The conversion loop of `GetStandingOrders` (lines 32-50). */
  method ConvertStandingOrders(osSOs: seq<OsStandingOrder>, parse: string -> Option<Date>)
    returns (r: Result<seq<Payment>, ProviderError>)
    ensures r == DecodeAll(osSOs, StandingOrderDecoder(parse))
  {
    var results: seq<Payment> := [];
    var i := 0;
    while i < |osSOs|
      invariant 0 <= i <= |osSOs|
      invariant DecodeAll(osSOs[..i], StandingOrderDecoder(parse)) == Ok(results)
    {
      var osSO := osSOs[i];
      DecodeAllStep(osSOs, i, StandingOrderDecoder(parse), results);
      var dueDate := parse(osSO.paymentDate);
      if dueDate.None? {
        DecodeErrorStays(osSOs, i + 1, StandingOrderDecoder(parse));
        return Err(BadDate(osSO.paymentDate));
      }
      var id := Atoi(osSO.paymentId);
      if id.None? {
        DecodeErrorStays(osSOs, i + 1, StandingOrderDecoder(parse));
        return Err(BadNumber(osSO.paymentId));
      }
      var payeeId := Atoi(osSO.payee.payeeId);
      if payeeId.None? {
        DecodeErrorStays(osSOs, i + 1, StandingOrderDecoder(parse));
        return Err(BadNumber(osSO.payee.payeeId));
      }
      results := results + [Payment(id.value, payeeId.value, osSO.payee.name, dueDate.value,
                                    FromFiserv(osSO.paymentFrequency), AmountPence(osSO.amount))];
      i := i + 1;
    }
    assert osSOs[..i] == osSOs;
    return Ok(results);
  }

  /** What `getOutsystemsStandingOrders` yields: the account lookup's error, or the list request's answer. */
  function Fetched(cache: map<string, string>, cif: string, accounts: AccountsReply,
                   fetched: Result<seq<OsStandingOrder>, ProviderError>): Result<seq<OsStandingOrder>, ProviderError>
  {
    var account := LookupOutcome(cache, cif, accounts).0;
    if account.Err? then Err(account.error) else fetched
  }

  class StandingOrderProvider {
    const accountCache: CustomerAccountCache

    constructor (cache: CustomerAccountCache)
      ensures accountCache == cache
    {
      accountCache := cache;
    }

    /**
     * `getOutsystemsStandingOrders`. The upstream answers are oracles:
     * `accounts` for the account-id request, `fetched` for the list request
     * and its decoding.
     */
    method FetchStandingOrders(cif: string, accounts: AccountsReply, fetched: Result<seq<OsStandingOrder>, ProviderError>)
      returns (r: Result<seq<OsStandingOrder>, ProviderError>)
      modifies accountCache
      ensures accountCache.cache == LookupOutcome(old(accountCache.cache), cif, accounts).1
      ensures r == Fetched(old(accountCache.cache), cif, accounts, fetched)
    {
      var accountId, _ := accountCache.GetPrimaryAccountId(cif, accounts);
      if accountId.Err? {
        return Err(accountId.error);
      }
      return fetched;
    }

    /** `GetStandingOrders`: the fetched records as payments. */
    method GetStandingOrders(cif: string, accounts: AccountsReply, fetched: Result<seq<OsStandingOrder>, ProviderError>,
                             parse: string -> Option<Date>)
      returns (r: Result<seq<Payment>, ProviderError>)
      modifies accountCache
      ensures accountCache.cache == LookupOutcome(old(accountCache.cache), cif, accounts).1
      ensures r == match Fetched(old(accountCache.cache), cif, accounts, fetched)
        case Err(e) => Err(e)
        case Ok(sos) => DecodeAll(sos, StandingOrderDecoder(parse))
    {
      var osSOs := FetchStandingOrders(cif, accounts, fetched);
      if osSOs.Err? {
        return Err(osSOs.error);
      }
      r := ConvertStandingOrders(osSOs.value, parse);
    }

    /**
     * `SaveStandingOrder`: look the account up, fetch the records (which looks
     * the account up again, now from the memo), select and compare, and PUT
     * the record if it changed. `putError` is the PUT's outcome; `put` is the
     * body of the PUT, if one is issued.
     */
    method SaveStandingOrder(cif: string, payment: Payment, accounts: AccountsReply,
                             fetched: Result<seq<OsStandingOrder>, ProviderError>, putError: Option<ProviderError>)
      returns (err: Option<ProviderError>, put: Option<OsStandingOrder>)
      modifies accountCache
      ensures accountCache.cache == LookupOutcome(old(accountCache.cache), cif, accounts).1
      ensures match Fetched(old(accountCache.cache), cif, accounts, fetched)
        case Err(e) => err == Some(e) && put == None
        case Ok(sos) =>
          match PutRequest(sos, payment)
          case Err(e) => err == Some(e) && put == None
          case Ok(None) => err == None && put == None
          case Ok(Some(body)) => err == putError && put == Some(body)
    {
      put := None;
      var accountId, _ := accountCache.GetPrimaryAccountId(cif, accounts);
      if accountId.Err? {
        return Some(accountId.error), put;
      }
      var osSOs := FetchStandingOrders(cif, accounts, fetched);
      if osSOs.Err? {
        return Some(osSOs.error), put;
      }
      var request := SelectAndUpdate(osSOs.value, payment);
      if request.Err? {
        return Some(request.error), put;
      }
      if request.value.Some? {
        put := request.value;
        return putError, put;
      }
      return None, put;
    }
  }

  // Properties of a save.

  /** The save fails with "not found", and sends nothing, exactly when no record carries the padded id. */
  lemma NotFoundIffNoRecord(sos: seq<OsStandingOrder>, p: Payment)
    ensures PutRequest(sos, p) == Err(NotFound(p.id)) <==>
      forall j | 0 <= j < |sos| :: sos[j].paymentId != FormatPaymentId(p.id)
    ensures PutRequest(sos, p).Err? ==> PutRequest(sos, p) == Err(NotFound(p.id))
  {
  }

  /**
   * The record a save selects is one the conversion reads with the payment's
   * own id; a record whose id is not written with 22 characters is never selected.
   */
  lemma SelectedRecordHasPaymentId(sos: seq<OsStandingOrder>, p: Payment)
    requires IsInt64(p.id) && PutRequest(sos, p).Ok?
    ensures var k := FirstMatch(sos, FormatPaymentId(p.id));
      0 <= k < |sos| && Atoi(sos[k].paymentId) == Some(p.id) && |sos[k].paymentId| == 22
  {
    PaymentIdRoundTrip(p.id);
  }

  /**
   * A PUT is sent exactly when the first matching record differs, and its
   * body is that record brought up to date.
   */
  lemma PutOnlyWhenChanged(sos: seq<OsStandingOrder>, p: Payment)
    requires PutRequest(sos, p).Ok?
    ensures var k := FirstMatch(sos, FormatPaymentId(p.id));
      && 0 <= k < |sos|
      && (PutRequest(sos, p).value.Some? <==> Changed(sos[k], p))
      && (PutRequest(sos, p).value.Some? ==> PutRequest(sos, p).value.value == Updated(sos[k], p))
  {
  }

  /**
   * A differing schedule is rewritten as a whole: name and date together.
   * The body agrees with the payment in date and amount, and in frequency when
   * the frequency is storable; every other field is the record's own.
   */
  lemma UpdatedAgrees(so: OsStandingOrder, p: Payment)
    ensures var u := Updated(so, p);
      && u.paymentDate == p.dueDate.formatted
      && AmountPence(u.amount) == p.amountPence
      && (ScheduleDiffers(so, p) ==> u.paymentFrequency == ToFiserv(p.frequency))
      && (!ScheduleDiffers(so, p) ==> u.paymentFrequency == so.paymentFrequency)
      && (Storable(p.frequency) ==> FromFiserv(u.paymentFrequency) == p.frequency)
      && u.(amount := so.amount, paymentDate := so.paymentDate, paymentFrequency := so.paymentFrequency) == so
  {
    PenceRoundTrip(p.amountPence);
  }

  /** An unchanged record is sent back untouched. */
  lemma UpdatedKeeps(so: OsStandingOrder, p: Payment)
    ensures !Changed(so, p) ==> Updated(so, p) == so
  {
  }

  /** Saving the same payment again over the record just written sends nothing. */
  lemma SaveIdempotent(so: OsStandingOrder, p: Payment)
    requires Storable(p.frequency)
    ensures !Changed(Updated(so, p), p)
  {
    UpdatedAgrees(so, p);
  }

  /**
   * Moving the date of a standing order stored under a synonym rewrites its
   * frequency name: "TwiceMonthly" is saved back as "BiWeekly", and "Daily"
   * as the empty name.
   */
  lemma DateChangeRenamesFrequency(so: OsStandingOrder, p: Payment)
    requires so.paymentDate != p.dueDate.formatted
    ensures so.paymentFrequency == "TwiceMonthly" && p.frequency == Fortnightly ==>
      Updated(so, p).paymentFrequency == "BiWeekly"
    ensures so.paymentFrequency == "Daily" && p.frequency == Daily ==>
      Updated(so, p).paymentFrequency == ""
  {
  }

  /**
   * A record brought up to date reads back as the payment that was saved,
   * with the payee the record already had, provided the date layout parses
   * back what it formats.
   */
  lemma SavedRecordReadsBack(so: OsStandingOrder, p: Payment, parse: string -> Option<Date>)
    requires IsInt64(p.id) && so.paymentId == FormatPaymentId(p.id) && Storable(p.frequency)
    requires parse(p.dueDate.formatted) == Some(p.dueDate)
    requires Atoi(so.payee.payeeId).Some?
    ensures DecodeStandingOrder(Updated(so, p), parse) ==
      Ok(p.(recipientId := Atoi(so.payee.payeeId).value, recipientName := so.payee.name))
  {
    UpdatedAgrees(so, p);
    PaymentIdRoundTrip(p.id);
  }
}
