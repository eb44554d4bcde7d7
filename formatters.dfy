/**
 * The formatting helpers of src/utils/formatters.js. Date parsing, the
 * validity test and the pattern formatter belong to the date library and
 * are parameters; only the guards in front of them are modelled.
 */
module Formatters {
  import opened Common

  const DEFAULT_MAX_LENGTH := 50
  const ELLIPSIS := "..."

  /** `text.substring(0, n)` for `n < |text|`: a negative end counts as 0. */
  function Head(text: string, n: int): string
    requires n < |text|
  {
    if n < 0 then "" else text[..n]
  }

  /**
   * `truncateText`: falsy text becomes empty, text that fits is kept, longer
   * text keeps its first `maxLength` characters followed by an ellipsis.
   */
  function TruncateText(text: Option<string>, maxLength: int := DEFAULT_MAX_LENGTH): (r: string)
    ensures !Truthy(text) ==> r == ""
    ensures Truthy(text) && |text.value| <= maxLength ==> r == text.value
    ensures Truthy(text) && 0 <= maxLength < |text.value| ==>
      |r| == maxLength + 3 && r[..maxLength] == text.value[..maxLength] && r[maxLength..] == ELLIPSIS
    ensures Truthy(text) && maxLength < 0 ==> r == ELLIPSIS
  {
    if !Truthy(text) then ""
    else if |text.value| <= maxLength then text.value
    else Head(text.value, maxLength) + ELLIPSIS
  }

  /** Truncating an already truncated text changes nothing. */
  lemma TruncateIdempotent(text: Option<string>, maxLength: int)
    ensures TruncateText(Some(TruncateText(text, maxLength)), maxLength) == TruncateText(text, maxLength)
  {
    var r := TruncateText(text, maxLength);
    if Truthy(text) && |text.value| > maxLength {
      if maxLength >= 0 {
        assert r[..maxLength] + ELLIPSIS == r;
      }
    }
  }

  /** With the default limit, a long text is cut to 50 characters plus the ellipsis. */
  lemma DefaultTruncation(text: string)
    requires |text| > 50
    ensures TruncateText(Some(text)) == text[..50] + ELLIPSIS
    ensures |TruncateText(Some(text))| == 53
  {
  }

  /** The argument of a date formatter: a date string, a date object, or `null`/`undefined`. */
  datatype DateArg<D> = NoDate | DateText(text: string) | DateValue(date: D)

  /** JavaScript truthiness of the argument: a date object is truthy, `''` is not. */
  predicate Present<D>(arg: DateArg<D>) {
    arg.DateValue? || (arg.DateText? && arg.text != "")
  }

  const DATE_TIME_PATTERN := "MMM d, yyyy \U{2022} h:mm a"
  const DATE_PATTERN := "MMM d, yyyy"

  /** The guards shared by both formatters, in front of the library's `format`. */
  function FormatGuarded<D>(arg: DateArg<D>, pattern: string,
                            parseISO: string -> D, isValid: D -> bool, format: (D, string) -> string): string
  {
    if !Present(arg) then "N/A"
    else
      var date := if arg.DateText? then parseISO(arg.text) else arg.date;
      if !isValid(date) then "Invalid Date" else format(date, pattern)
  }

  /** `formatDateTime`. */
  function FormatDateTime<D>(arg: DateArg<D>, parseISO: string -> D, isValid: D -> bool, format: (D, string) -> string): (r: string)
    ensures !Present(arg) ==> r == "N/A"
    ensures arg.DateText? && arg.text != "" && !isValid(parseISO(arg.text)) ==> r == "Invalid Date"
    ensures arg.DateValue? && !isValid(arg.date) ==> r == "Invalid Date"
    ensures arg.DateValue? && isValid(arg.date) ==> r == format(arg.date, DATE_TIME_PATTERN)
    ensures arg.DateText? && arg.text != "" && isValid(parseISO(arg.text)) ==> r == format(parseISO(arg.text), DATE_TIME_PATTERN)
  {
    FormatGuarded(arg, DATE_TIME_PATTERN, parseISO, isValid, format)
  }

  /** `formatDate`. */
  function FormatDate<D>(arg: DateArg<D>, parseISO: string -> D, isValid: D -> bool, format: (D, string) -> string): (r: string)
    ensures !Present(arg) ==> r == "N/A"
    ensures arg.DateText? && arg.text != "" && !isValid(parseISO(arg.text)) ==> r == "Invalid Date"
    ensures arg.DateValue? && !isValid(arg.date) ==> r == "Invalid Date"
    ensures arg.DateValue? && isValid(arg.date) ==> r == format(arg.date, DATE_PATTERN)
    ensures arg.DateText? && arg.text != "" && isValid(parseISO(arg.text)) ==> r == format(parseISO(arg.text), DATE_PATTERN)
  {
    FormatGuarded(arg, DATE_PATTERN, parseISO, isValid, format)
  }
}
