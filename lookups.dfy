/** The helpers of the monthly report: reading an amount, a person's display
    name, an entry's category, and an entry's date. */
module Lookups {
  import opened Payload
  import IntText

  /** The placeholder for a missing name or category. */
  const Unknown := "Unbekannt"

  /** `x.get("value")` of an optional money block. */
  function ValueOf(m: Option<Money>): Option<Scalar>
  {
    match m
    case None => None
    case Some(money) => money.value
  }

  /** `float(v)` inside a `try` whose handler returns 0.0. */
  function ToFloat(v: Scalar): real
  {
    match v
    case Numeric(x) => x
    case NonNumeric => 0.0
  }

  /** `_get_amount`: the local-currency value if there is one, else the base
      value, else 0; a value that does not convert gives 0 and does not fall
      back to the next field. */
  function GetAmount(amountLocal: Option<Money>, amount: Option<Money>): (r: real)
    ensures ValueOf(amountLocal).Some? && ValueOf(amountLocal).value.Numeric? ==>
              r == ValueOf(amountLocal).value.number
    ensures ValueOf(amountLocal) == Some(NonNumeric) ==> r == 0.0
    ensures ValueOf(amountLocal).None? && ValueOf(amount).Some? && ValueOf(amount).value.Numeric? ==>
              r == ValueOf(amount).value.number
    ensures ValueOf(amountLocal).None? && (ValueOf(amount).None? || ValueOf(amount) == Some(NonNumeric)) ==>
              r == 0.0
  {
    match ValueOf(amountLocal)
    case Some(v) => ToFloat(v)
    case None =>
      match ValueOf(amount)
      case Some(v) => ToFloat(v)
      case None => 0.0
  }

  /** The chain `["RegistryMembershipNonUser"]["alias"]["display_name"]`, if
      every link is there. */
  function AliasName(m: Option<Membership>): Option<string>
  {
    match m
    case None => None
    case Some(ms) =>
      match ms.nonUser
      case None => None
      case Some(nu) =>
        match nu.alias
        case None => None
        case Some(al) => al.displayName
  }

  /** `_get_display_name`: the alias's display name, or the placeholder when a
      link of the chain is missing or the name is empty. */
  function DisplayName(m: Option<Membership>): (r: string)
    ensures r != ""
    ensures AliasName(m).Some? && AliasName(m).value != "" ==> r == AliasName(m).value
    ensures r == Unknown <==> AliasName(m).None? || AliasName(m).value in {"", Unknown}
  {
    match AliasName(m)
    case Some(name) => if name != "" then name else Unknown
    case None => Unknown
  }

  /** `category_custom or category or "Unbekannt"`. */
  function CategoryOf(custom: Option<string>, category: Option<string>): (r: string)
    ensures r != ""
    ensures custom.Some? && custom.value != "" ==> r == custom.value
    ensures (custom.None? || custom.value == "") && category.Some? && category.value != "" ==>
              r == category.value
    ensures (custom.None? || custom.value == "") && (category.None? || category.value == "") ==>
              r == Unknown
  {
    if custom.Some? && custom.value != "" then custom.value
    else if category.Some? && category.value != "" then category.value
    else Unknown
  }

  /** The two formats `_parse_date` tries, in order:
      "%Y-%m-%d %H:%M:%S.%f" and "%Y-%m-%d %H:%M:%S". */
  datatype DateFormat = WithMicroseconds | WithoutMicroseconds

  const Formats := [WithMicroseconds, WithoutMicroseconds]

  /** The part of a parsed `datetime` that the report looks at. */
  datatype DateTime = DateTime(year: nat, month: nat)

  /** `datetime.strptime`, which is not modelled: `None` where it raises. */
  type Strptime = (string, DateFormat) -> Option<DateTime>

  /** The loop of `_parse_date`: the result of the first format that parses. */
  function TryFormats(strptime: Strptime, s: string, formats: seq<DateFormat>): (r: Option<DateTime>)
    ensures r.Some? ==>
              exists i :: 0 <= i < |formats| && strptime(s, formats[i]) == r &&
                (forall j :: 0 <= j < i ==> strptime(s, formats[j]).None?)
    ensures r.None? ==> forall i :: 0 <= i < |formats| ==> strptime(s, formats[i]).None?
    decreases |formats|
  {
    if formats == [] then None
    else
      match strptime(s, formats[0])
      case Some(dt) => Some(dt)
      case None =>
        var r := TryFormats(strptime, s, formats[1..]);
        assert forall i :: 1 <= i < |formats| ==> formats[i] == formats[1..][i - 1];
        r
  }

  /** `_parse_date(entry.get("date"))`: nothing for a missing or empty date,
      else the first of the two formats that parses. */
  function ParseDate(strptime: Strptime, date: Option<string>): (r: Option<DateTime>)
    ensures date.None? || date == Some("") ==> r.None?
    ensures r.Some? ==>
              strptime(date.value, WithMicroseconds) == r ||
              (strptime(date.value, WithMicroseconds).None? && strptime(date.value, WithoutMicroseconds) == r)
    ensures date.Some? && date.value != "" && r.None? ==>
              strptime(date.value, WithMicroseconds).None? && strptime(date.value, WithoutMicroseconds).None?
  {
    match date
    case None => None
    case Some(s) => if s == "" then None else TryFormats(strptime, s, Formats)
  }

  /** The loop of `_parse_date` itself: each format in turn, returning on the
      first one that parses. */
  method ParseDateOf(strptime: Strptime, date: Option<string>) returns (r: Option<DateTime>)
    ensures r == ParseDate(strptime, date)
  {
    if date.None? || date.value == "" {
      return None;
    }
    var s := date.value;
    for i := 0 to |Formats|
      invariant forall j :: 0 <= j < i ==> strptime(s, Formats[j]).None?
    {
      var parsed := strptime(s, Formats[i]);
      if parsed.Some? {
        return parsed;
      }
    }
    return None;
  }

  /** `dt.strftime("%Y-%m")`, the year padded to four digits and the month
      to two. */
  function MonthKey(dt: DateTime): string
  {
    IntText.Pad(dt.year, 4) + "-" + IntText.Pad(dt.month, 2)
  }

  /** A calendar date's month key is seven characters long with the dash at
      index 4: "2025-07", never "2025-7". */
  lemma MonthKeyShape(dt: DateTime)
    requires dt.year < 10000 && dt.month < 100
    ensures |MonthKey(dt)| == 7 && MonthKey(dt)[4] == '-'
  {
    IntText.DigitsLength(dt.year, 4);
    IntText.DigitsLength(dt.month, 2);
  }
}
