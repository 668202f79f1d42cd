/** `DatetimeDatum`: dates that behave as their timestamps, and the filter that wraps them. */
module Data {
  import opened PyValues

  datatype CalendarDate = CalendarDate(year: int, month: int, day: int)

  /** A naive `datetime.datetime`. */
  datatype DateTime = DateTime(date: CalendarDate, hour: int, minute: int, second: int, microsecond: int)

  /** The wrapper keeps only the timestamp of the datetime it was made from. */
  datatype DatetimeDatum = DatetimeDatum(value: real)

  /** A value in a series: a date, a datetime, an already wrapped date, or anything else. */
  datatype Value =
    | DateValue(date: CalendarDate)
    | DateTimeValue(dateTime: DateTime)
    | Wrapped(datum: DatetimeDatum)
    | Plain(v: PyValue)

  /** `isinstance(v, datetime.date)`: true of datetimes as well, since `datetime` subclasses `date`. */
  predicate IsDate(v: Value) {
    v.DateValue? || v.DateTimeValue?
  }

  /** `datetime.datetime(d.year, d.month, d.day)`. */
  function Midnight(d: CalendarDate): DateTime {
    DateTime(d, 0, 0, 0, 0)
  }

  /**
   * `check_value_for_date`; `timestamp` stands for `datetime.timestamp()`,
   * which depends on the local time zone.
   */
  function CheckValueForDate(v: Value, timestamp: DateTime -> real): (r: Value)
    ensures !IsDate(r)
    ensures !IsDate(v) ==> r == v
    ensures v.DateTimeValue? ==> r == Wrapped(DatetimeDatum(timestamp(v.dateTime)))
    ensures v.DateValue? ==> r == Wrapped(DatetimeDatum(timestamp(DateTime(v.date, 0, 0, 0, 0))))
  {
    match v
    case DateTimeValue(dt) => Wrapped(DatetimeDatum(timestamp(dt)))
    case DateValue(d) => Wrapped(DatetimeDatum(timestamp(Midnight(d))))
    case _ => v
  }

  /** A list or a tuple: `type(series)(filtered)` keeps which one it was. */
  datatype Kind = ListKind | TupleKind
  datatype Container = Container(kind: Kind, items: seq<Value>)

  /** `check_series_for_dates`: every element filtered in place, container kind kept. */
  function CheckSeriesForDates(series: Container, timestamp: DateTime -> real): (r: Container)
    ensures r.kind == series.kind && |r.items| == |series.items|
    ensures forall i :: 0 <= i < |r.items| ==> r.items[i] == CheckValueForDate(series.items[i], timestamp)
  {
    Container(series.kind,
      seq(|series.items|, i requires 0 <= i < |series.items| => CheckValueForDate(series.items[i], timestamp)))
  }

  /**
   * After filtering no date is left, everything that was not a date is where
   * it was, and filtering again changes nothing.
   */
  lemma FilterIsIdempotent(series: Container, timestamp: DateTime -> real)
    ensures var r := CheckSeriesForDates(series, timestamp);
            && (forall i :: 0 <= i < |r.items| ==> !IsDate(r.items[i]))
            && (forall i :: 0 <= i < |r.items| && !IsDate(series.items[i]) ==> r.items[i] == series.items[i])
            && CheckSeriesForDates(r, timestamp) == r
  {
  }

  /** The right operand of an operator: a number or another wrapper. */
  datatype Operand = Num(n: real) | Datum(d: DatetimeDatum)

  /** The number an operand stands for. */
  function NumericValue(o: Operand): real {
    match o
    case Num(n) => n
    case Datum(d) => d.value
  }

  /**
   * `a + other`. A float plus a wrapper is not implemented by the float, so
   * for two wrappers Python falls back to the right one's `__radd__`.
   */
  function Add(a: DatetimeDatum, other: Operand): (r: real)
    ensures r == a.value + NumericValue(other)
  {
    match other
    case Num(n) => a.value + n
    case Datum(b) => RAdd(b, a.value)
  }

  /** `n + a` for a number `n`: `__radd__`. */
  function RAdd(a: DatetimeDatum, n: real): (r: real)
    ensures r == n + a.value
  {
    a.value + n
  }

  /** `a - other`, falling back to the right wrapper's `__rsub__`. */
  function Sub(a: DatetimeDatum, other: Operand): (r: real)
    ensures r == a.value - NumericValue(other)
  {
    match other
    case Num(n) => a.value - n
    case Datum(b) => RSub(b, a.value)
  }

  /** `n - a` for a number `n`: `__rsub__`. */
  function RSub(a: DatetimeDatum, n: real): (r: real)
    ensures r == n - a.value
  {
    n - a.value
  }

  /** Adding a number gives the same on either side, and subtracting is antisymmetric. */
  lemma ArithmeticOnTimestamps(a: DatetimeDatum, n: real)
    ensures Add(a, Num(n)) == RAdd(a, n) == a.value + n
    ensures Sub(a, Num(n)) == -RSub(a, n) == a.value - n
  {
  }

  function Rank(o: Operand): nat {
    if o.Datum? then 1 else 0
  }

  /** `a < other`; between wrappers Python reflects to the right one's `__gt__`. */
  function Lt(a: DatetimeDatum, other: Operand): (r: bool)
    ensures r <==> a.value < NumericValue(other)
    decreases Rank(other)
  {
    match other
    case Num(n) => a.value < n
    case Datum(b) => Gt(b, Num(a.value))
  }

  /** `a <= other`, reflected to `__ge__`. */
  function Le(a: DatetimeDatum, other: Operand): (r: bool)
    ensures r <==> a.value <= NumericValue(other)
    decreases Rank(other)
  {
    match other
    case Num(n) => a.value <= n
    case Datum(b) => Ge(b, Num(a.value))
  }

  /** `a > other`, reflected to `__lt__`. */
  function Gt(a: DatetimeDatum, other: Operand): (r: bool)
    ensures r <==> a.value > NumericValue(other)
    decreases Rank(other)
  {
    match other
    case Num(n) => a.value > n
    case Datum(b) => Lt(b, Num(a.value))
  }

  /** `a >= other`, reflected to `__le__`. */
  function Ge(a: DatetimeDatum, other: Operand): (r: bool)
    ensures r <==> a.value >= NumericValue(other)
    decreases Rank(other)
  {
    match other
    case Num(n) => a.value >= n
    case Datum(b) => Le(b, Num(a.value))
  }

  /** `a == other`, reflected to the right wrapper's `__eq__`. */
  function Eq(a: DatetimeDatum, other: Operand): (r: bool)
    ensures r <==> a.value == NumericValue(other)
    decreases Rank(other)
  {
    match other
    case Num(n) => a.value == n
    case Datum(b) => Eq(b, Num(a.value))
  }

  /** `a != other`, reflected to the right wrapper's `__ne__`. */
  function Ne(a: DatetimeDatum, other: Operand): (r: bool)
    ensures r <==> a.value != NumericValue(other)
    decreases Rank(other)
  {
    match other
    case Num(n) => a.value != n
    case Datum(b) => Ne(b, Num(a.value))
  }

  /** The six comparisons agree with one another as a total order does. */
  lemma ComparisonsAreConsistent(a: DatetimeDatum, other: Operand)
    ensures Le(a, other) <==> Lt(a, other) || Eq(a, other)
    ensures Ge(a, other) <==> !Lt(a, other)
    ensures Gt(a, other) <==> !Le(a, other)
    ensures Ne(a, other) <==> !Eq(a, other)
    ensures Lt(a, other) || Eq(a, other) || Gt(a, other)
  {
  }

  /** Two wrapped dates compare as their timestamps do. */
  lemma WrappedDatesCompareByTimestamp(d1: Value, d2: Value, timestamp: DateTime -> real)
    requires IsDate(d1) && IsDate(d2)
    ensures var w1, w2 := CheckValueForDate(d1, timestamp).datum, CheckValueForDate(d2, timestamp).datum;
            var t1 := timestamp(if d1.DateTimeValue? then d1.dateTime else Midnight(d1.date));
            var t2 := timestamp(if d2.DateTimeValue? then d2.dateTime else Midnight(d2.date));
            && (Lt(w1, Datum(w2)) <==> t1 < t2)
            && (Eq(w1, Datum(w2)) <==> t1 == t2)
            && Sub(w1, Datum(w2)) == t1 - t2
  {
  }
}
