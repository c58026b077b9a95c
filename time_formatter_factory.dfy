/** The choice of arrival-time formatter: a requested format type and the device's 24-hour
    setting decide between the 24-hour and the 12-hour formatter. Models TimeFormatterFactory.java
    with TwentyFourHourFormatter.java and TwelveHourFormatter.java folded in. */
module TimeFormatting {

  /** The requested format type. The source takes any int: `OtherType(code)` stands only for
      codes other than those of the three named constants, which are always written as the
      named variants. */
  datatype NavigationTimeFormat = NoneSpecified | TwelveHours | TwentyFourHours | OtherType(code: int)

  const TWENTY_FOUR_HOUR_FORMAT: string := "%tk:%tM"
  const TWELVE_HOUR_FORMAT: string := "%tl:%tM %tp"

  /** The two formatter classes. */
  datatype TimeFormatter = TwentyFourHourFormatter | TwelveHourFormatter {

    /** `getFormattingString()`: each formatter has its own format string. */
    function FormattingString(): (s: string)
      ensures s == TWENTY_FOUR_HOUR_FORMAT <==> this == TwentyFourHourFormatter
      ensures s == TWELVE_HOUR_FORMAT <==> this == TwelveHourFormatter
    {
      match this
      case TwentyFourHourFormatter => TWENTY_FOUR_HOUR_FORMAT
      case TwelveHourFormatter => TWELVE_HOUR_FORMAT
    }
  }

  /** The type after resolving "none specified" against the device setting. */
  function ResolveType(formatType: NavigationTimeFormat, isTwentyFourHourFormat: bool): (t: NavigationTimeFormat)
    ensures t != NoneSpecified
    ensures formatType != NoneSpecified ==> t == formatType
    ensures formatType == NoneSpecified ==> (t == TwentyFourHours <==> isTwentyFourHourFormat)
    ensures formatType == NoneSpecified ==> (t == TwelveHours <==> !isTwentyFourHourFormat)
  {
    if formatType == NoneSpecified then
      (if isTwentyFourHourFormat then TwentyFourHours else TwelveHours)
    else formatType
  }

  /** `getTimeFormatter`, with `DateFormat.is24HourFormat(context)` passed in as a flag. */
  function GetTimeFormatter(isTwentyFourHourFormat: bool, formatType: NavigationTimeFormat): (f: TimeFormatter)
    ensures formatType == TwentyFourHours ==> f == TwentyFourHourFormatter
    ensures formatType == TwelveHours ==> f == TwelveHourFormatter
    ensures formatType == NoneSpecified ==> (f == TwentyFourHourFormatter <==> isTwentyFourHourFormat)
    ensures formatType.OtherType? ==> f == TwelveHourFormatter
    ensures f == TwentyFourHourFormatter <==>
      formatType == TwentyFourHours || (formatType == NoneSpecified && isTwentyFourHourFormat)
  {
    if ResolveType(formatType, isTwentyFourHourFormat) == TwentyFourHours then TwentyFourHourFormatter
    else TwelveHourFormatter
  }
}
