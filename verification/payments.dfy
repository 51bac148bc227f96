/** Payments as the handlers see them: direct debits and standing orders alike. */
module Payments {
  import opened Wrappers

  /** Go's `type Frequency string`; the zero value is the empty string. */
  type Frequency = string

  const Daily: Frequency := "Daily"
  const Weekly: Frequency := "Weekly"
  const Monthly: Frequency := "Monthly"
  const Fortnightly: Frequency := "Fortnightly"
  const Quarterly: Frequency := "Quarterly"
  const Annually: Frequency := "Annually"

  /** The frequencies both upstream systems can be asked to store. */
  predicate Storable(f: Frequency)
  {
    f == Weekly || f == Fortnightly || f == Monthly || f == Quarterly || f == Annually
  }

  /**
   * A due date, through the three things the providers ask of a `time.Time`:
   * its `2006-01-02` rendering, `Weekday()` (0 is Sunday) and `Day()`.
   */
  datatype DateView = DateView(formatted: string, weekday: int, dayOfMonth: int)
  type Date = d: DateView | 0 <= d.weekday <= 6 && 1 <= d.dayOfMonth <= 31
    witness DateView("0001-01-01", 1, 1)

  datatype Payment = Payment(
    id: int,
    recipientId: int,
    recipientName: string,
    dueDate: Date,
    frequency: Frequency,
    amountPence: int)

  /** `math.Round`: halves round away from zero. */
  function Round(x: real): (n: int)
    ensures x >= 0.0 ==> x - 0.5 < n as real <= x + 0.5
    ensures x < 0.0 ==> x - 0.5 <= n as real < x + 0.5
    ensures x >= 0.0 ==> n >= 0
  {
    if x >= 0.0 then (x + 0.5).Floor else -((-x + 0.5).Floor)
  }

  /** `int(math.Round(amount * 100))`: an upstream amount in pounds as pence. */
  function AmountPence(amount: real): int
  {
    Round(amount * 100.0)
  }

  /** `float64(pence) * 0.01`: pence as an upstream amount in pounds. */
  function PenceAmount(pence: int): real
  {
    pence as real * 0.01
  }

  /** Writing an amount and reading it back gives the same number of pence. */
  lemma PenceRoundTrip(pence: int)
    ensures AmountPence(PenceAmount(pence)) == pence
  {
    assert PenceAmount(pence) * 100.0 == pence as real;
    if pence >= 0 {
      assert (pence as real + 0.5).Floor == pence;
    } else {
      assert (-(pence as real) + 0.5).Floor == -pence;
    }
  }

  /**
   * The conversion loops of both providers: every upstream record as a
   * payment, in order, or the error of the first record that does not convert.
   */
  function DecodeAll<T, E>(records: seq<T>, decode: T -> Result<Payment, E>): Result<seq<Payment>, E>
  {
    if records == [] then Ok([])
    else match DecodeAll(records[..|records| - 1], decode)
      case Err(e) => Err(e)
      case Ok(ps) =>
        match decode(records[|records| - 1])
        case Err(e) => Err(e)
        case Ok(p) => Ok(ps + [p])
  }

  /** One more record converted: the loop's step. */
  lemma DecodeAllStep<T, E>(records: seq<T>, i: int, decode: T -> Result<Payment, E>, ps: seq<Payment>)
    requires 0 <= i < |records| && DecodeAll(records[..i], decode) == Ok(ps)
    ensures DecodeAll(records[..i + 1], decode) ==
      match decode(records[i])
      case Err(e) => Err(e)
      case Ok(p) => Ok(ps + [p])
  {
    assert records[..i + 1][..i] == records[..i];
  }

  /** Once a prefix fails to convert, the whole list fails with the same error. */
  lemma {:induction false} DecodeErrorStays<T, E>(records: seq<T>, k: int, decode: T -> Result<Payment, E>)
    requires 0 <= k <= |records| && DecodeAll(records[..k], decode).Err?
    ensures DecodeAll(records, decode) == DecodeAll(records[..k], decode)
    decreases |records| - k
  {
    if k < |records| {
      assert records[..k + 1][..k] == records[..k];
      DecodeErrorStays(records, k + 1, decode);
    } else {
      assert records[..k] == records;
    }
  }

  /**
   * The conversion succeeds exactly when every record converts; then there is
   * one payment per record, in order; otherwise the error is that of the
   * first record that does not convert.
   */
  lemma {:induction false} DecodeAllSpec<T, E>(records: seq<T>, decode: T -> Result<Payment, E>)
    ensures DecodeAll(records, decode).Ok? <==> forall i | 0 <= i < |records| :: decode(records[i]).Ok?
    ensures DecodeAll(records, decode).Ok? ==>
      var ps := DecodeAll(records, decode).value;
      |ps| == |records| && forall i | 0 <= i < |records| :: decode(records[i]) == Ok(ps[i])
    ensures DecodeAll(records, decode).Err? ==>
      exists k | 0 <= k < |records| ::
        decode(records[k]) == Err(DecodeAll(records, decode).error)
        && forall j | 0 <= j < k :: decode(records[j]).Ok?
  {
    if records != [] {
      var n := |records| - 1;
      var init := records[..n];
      DecodeAllSpec(init, decode);
      assert forall i | 0 <= i < n :: init[i] == records[i];
      if DecodeAll(init, decode).Err? {
        var k :| 0 <= k < n && decode(init[k]) == Err(DecodeAll(init, decode).error)
          && forall j | 0 <= j < k :: decode(init[j]).Ok?;
        assert decode(records[k]) == Err(DecodeAll(records, decode).error);
      } else if decode(records[n]).Err? {
        assert decode(records[n]) == Err(DecodeAll(records, decode).error);
      }
    }
  }
}
