/**
 * Range Items (CsRangeItem and CsInputDateRangeItem): a value that is a two-element array
 * `[lower, upper]`, with accessors for each bound. The date-range Item normalises every
 * bound it is given through a date formatter, which is a parameter here.
 */
module RangeItems {
  import opened Wrappers
  import opened Values

  /** `lowerValue`: the first element of a two-element array value, otherwise undefined. */
  function LowerValue(v: Value): (r: Value)
    ensures v.Arr? && |v.elems| == 2 ==> r == v.elems[0]
    ensures !(v.Arr? && |v.elems| == 2) ==> r == Undefined
  {
    if v.Arr? && |v.elems| == 2 then v.elems[0] else Undefined
  }

  /** `upperValue`: the second element of a two-element array value, otherwise undefined. */
  function UpperValue(v: Value): (r: Value)
    ensures v.Arr? && |v.elems| == 2 ==> r == v.elems[1]
    ensures !(v.Arr? && |v.elems| == 2) ==> r == Undefined
  {
    if v.Arr? && |v.elems| == 2 then v.elems[1] else Undefined
  }

  /** `setRangeValue(lower, upper)`: the pair, whatever the previous value. */
  function SetRangeValue(lower: Value, upper: Value): (r: Value)
    ensures r.Arr? && |r.elems| == 2
  {
    Arr([lower, upper])
  }

  /**
   * `setLowerValue(x)`: replaces the first element and keeps the previous second element
   * (undefined past the end). Without a previous array value the setter dereferences
   * nothing and throws: None.
   */
  function SetLowerValue(prev: Value, x: Value): (r: Option<Value>)
    ensures r.None? <==> !prev.Arr?
    ensures r.Some? ==> r.value.Arr? && |r.value.elems| == 2 && r.value.elems[0] == x
    ensures r.Some? ==> r.value.elems[1] == At(prev.elems, 1)
    ensures r.Some? && |prev.elems| < 2 ==> r.value.elems[1] == Undefined
  {
    if prev.Arr? then Some(Arr([x, At(prev.elems, 1)])) else None
  }

  /** `setUpperValue(x)`: replaces the second element and keeps the previous first element (undefined when there is none). */
  function SetUpperValue(prev: Value, x: Value): (r: Option<Value>)
    ensures r.None? <==> !prev.Arr?
    ensures r.Some? ==> r.value.Arr? && |r.value.elems| == 2 && r.value.elems[1] == x
    ensures r.Some? ==> r.value.elems[0] == At(prev.elems, 0)
    ensures r.Some? && |prev.elems| == 0 ==> r.value.elems[0] == Undefined
  {
    if prev.Arr? then Some(Arr([At(prev.elems, 0), x])) else None
  }

  /** The accessors read back what the setters wrote. */
  lemma RangeAccessorsRoundTrip(lower: Value, upper: Value)
    ensures LowerValue(SetRangeValue(lower, upper)) == lower
    ensures UpperValue(SetRangeValue(lower, upper)) == upper
  {
  }

  /** Setting one bound of a pair leaves the other bound readable and unchanged. */
  lemma SetOneBoundKeepsTheOther(prev: Value, x: Value)
    requires prev.Arr? && |prev.elems| == 2
    ensures LowerValue(SetLowerValue(prev, x).value) == x
    ensures UpperValue(SetLowerValue(prev, x).value) == UpperValue(prev)
    ensures UpperValue(SetUpperValue(prev, x).value) == x
    ensures LowerValue(SetUpperValue(prev, x).value) == LowerValue(prev)
  {
  }

  /** On a pair, setting both bounds one after the other is setting the range. */
  lemma SequentialSettersMakeRange(prev: Value, lower: Value, upper: Value)
    requires prev.Arr?
    ensures SetUpperValue(SetLowerValue(prev, lower).value, upper) == Some(SetRangeValue(lower, upper))
  {
  }

  // ---------------------------------------------------------------- dates

  /** The value format of a full date and of a year-month. */
  const DATE_VALUE_FORMAT: string := "YYYY-MM-DDTHH:mm:ssZ"
  const YEAR_MONTH_FORMAT: string := "YYYY-MM"

  /** The text the date formatter produces for an unparseable input. */
  const INVALID_DATE: string := "Invalid Date"

  /** `isYearMonth()`: the display format is one of the two year-month formats. */
  predicate IsYearMonth(format: Option<string>) {
    format == Some("YYYYMM") || format == Some("YYYY/MM")
  }

  /** `getValueFormat()`: year-month formats store "YYYY-MM", every other format a full timestamp. */
  function GetValueFormat(format: Option<string>): (f: string)
    ensures f == YEAR_MONTH_FORMAT <==> IsYearMonth(format)
    ensures f == DATE_VALUE_FORMAT <==> !IsYearMonth(format)
  {
    if IsYearMonth(format) then YEAR_MONTH_FORMAT else DATE_VALUE_FORMAT
  }

  /**
   * How a date-range setter normalises one bound: undefined and the empty string pass
   * through unformatted; anything else is formatted (`formatDate(input, valueFormat)`),
   * and an invalid date becomes undefined.
   */
  function NormalizeDate(x: Option<string>, format: Option<string>, formatDate: (string, string) -> string): (r: Value)
    ensures x.None? ==> r == Undefined
    ensures x == Some("") ==> r == Str("")
    ensures x.Some? && x.value != "" ==>
              var out := formatDate(x.value, GetValueFormat(format));
              r == (if out == INVALID_DATE then Undefined else Str(out))
    ensures r != Str(INVALID_DATE)
  {
    match x
    case None => Undefined
    case Some(s) =>
      if s == "" then Str("")
      else
        var out := formatDate(s, GetValueFormat(format));
        if out == INVALID_DATE then Undefined else Str(out)
  }

  /** The previous bound a date-range setter keeps: from an array, else undefined (it never throws). */
  function PreviousBound(prev: Value, i: nat): (r: Value)
    ensures prev.Arr? ==> r == At(prev.elems, i)
    ensures !prev.Arr? ==> r == Undefined
  {
    if prev.Arr? then At(prev.elems, i) else Undefined
  }

  /** Date-range `setLowerValue`: a normalised lower bound; the previous upper bound is kept. */
  function SetLowerDate(prev: Value, x: Option<string>, format: Option<string>,
                        formatDate: (string, string) -> string): (r: Value)
    ensures r.Arr? && |r.elems| == 2
    ensures LowerValue(r) == NormalizeDate(x, format, formatDate)
    ensures UpperValue(r) == PreviousBound(prev, 1)
  {
    Arr([NormalizeDate(x, format, formatDate), PreviousBound(prev, 1)])
  }

  /** Date-range `setUpperValue`: a normalised upper bound; the previous lower bound is kept. */
  function SetUpperDate(prev: Value, x: Option<string>, format: Option<string>,
                        formatDate: (string, string) -> string): (r: Value)
    ensures r.Arr? && |r.elems| == 2
    ensures UpperValue(r) == NormalizeDate(x, format, formatDate)
    ensures LowerValue(r) == PreviousBound(prev, 0)
  {
    Arr([PreviousBound(prev, 0), NormalizeDate(x, format, formatDate)])
  }

  /** Date-range `setRangeValue`: both bounds normalised; the previous value is ignored. */
  function SetDateRange(lower: Option<string>, upper: Option<string>, format: Option<string>,
                        formatDate: (string, string) -> string): (r: Value)
    ensures LowerValue(r) == NormalizeDate(lower, format, formatDate)
    ensures UpperValue(r) == NormalizeDate(upper, format, formatDate)
  {
    SetRangeValue(NormalizeDate(lower, format, formatDate), NormalizeDate(upper, format, formatDate))
  }

  /**
   * Unlike the generic setters, the date setters work from an undefined value, and a
   * stored date never holds the formatter's invalid-date text.
   */
  lemma DateSettersNeverThrowNorStoreInvalid(x: Option<string>, format: Option<string>,
                                             formatDate: (string, string) -> string)
    ensures SetLowerValue(Undefined, Str("x")).None?
    ensures SetLowerDate(Undefined, x, format, formatDate) == Arr([NormalizeDate(x, format, formatDate), Undefined])
    ensures LowerValue(SetLowerDate(Undefined, x, format, formatDate)) != Str(INVALID_DATE)
  {
  }

  /** Setting the lower then the upper date of a pair is setting the date range. */
  lemma SequentialDateSettersMakeRange(prev: Value, lower: Option<string>, upper: Option<string>,
                                       format: Option<string>, formatDate: (string, string) -> string)
    ensures SetUpperDate(SetLowerDate(prev, lower, format, formatDate), upper, format, formatDate)
            == SetDateRange(lower, upper, format, formatDate)
  {
  }
}
