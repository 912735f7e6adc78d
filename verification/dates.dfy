/** The date pieces shared by every date combinator and ISO-date processor:
    `DATE_TEMPLATE` (`${year}-${month}-${day}T${hour}:${minute}:${second}`)
    filled with `safe_substitute`, the trim before the first unfilled
    placeholder, and `isoformat_date` (asset_scanner/plugins/extraction_methods/utils.py),
    whose `strptime` and `dateutil` parsers are the foreign `strptime` and
    `parseDate`. */
module Dates {
  import opened Wrappers
  import opened Values
  import opened Strings

  /** One placeholder of the template: the body's value printed with `str`,
      or the placeholder itself when the body has no such key. */
  function Slot(fx: Foreign, body: Body, name: string): (r: string)
    ensures name !in body ==> r == "${" + name + "}"
    ensures name in body ==> r == PyStr(body[name], fx)
  {
    if name in body then PyStr(body[name], fx) else "${" + name + "}"
  }

  /** `DATE_TEMPLATE.safe_substitute(**body)`. */
  function Filled(fx: Foreign, body: Body): string {
    Slot(fx, body, "year") + "-" + Slot(fx, body, "month") + "-" + Slot(fx, body, "day")
    + "T" + Slot(fx, body, "hour") + ":" + Slot(fx, body, "minute") + ":" + Slot(fx, body, "second")
  }

  /** `date[0 : date.index("$") - 1]`, or the date itself without a `$`. A `$`
      in first position gives Python's `date[0:-1]`. */
  function Trim(date: string): (r: string)
    ensures '$' !in date ==> r == date
    ensures '$' in date ==> |r| < |date| && r == date[..|r|]
  {
    match Find(date, '$')
    case None => date
    case Some(i) => if i == 0 then date[..|date| - 1] else date[..i - 1]
  }

  /** The first occurrence of a character is the one `Find` reports. */
  lemma FindFirst(s: string, c: char, j: nat)
    requires j < |s| && s[j] == c && c !in s[..j]
    ensures Find(s, c) == Some(j)
  {
  }

  /** A template whose first `$` opens the text after `prefix` is cut to
      `prefix` without its last character (the separator). */
  lemma TrimAt(prefix: string, rest: string)
    requires |prefix| >= 1 && '$' !in prefix
    requires |rest| >= 1 && rest[0] == '$'
    ensures Trim(prefix + rest) == prefix[..|prefix| - 1]
  {
    var date := prefix + rest;
    assert date[..|prefix|] == prefix;
    FindFirst(date, '$', |prefix|);
  }

  /** With a year, month and day whose printed forms hold no `$`, and no
      hour, the template is cut to `Y-M-D`. */
  lemma TrimYearMonthDay(fx: Foreign, body: Body)
    requires "year" in body && "month" in body && "day" in body && "hour" !in body
    requires '$' !in PyStr(body["year"], fx) && '$' !in PyStr(body["month"], fx) && '$' !in PyStr(body["day"], fx)
    ensures Trim(Filled(fx, body)) == PyStr(body["year"], fx) + "-" + PyStr(body["month"], fx) + "-" + PyStr(body["day"], fx)
  {
    var y, m, d := PyStr(body["year"], fx), PyStr(body["month"], fx), PyStr(body["day"], fx);
    var prefix := y + "-" + m + "-" + d + "T";
    var rest := Slot(fx, body, "hour") + ":" + Slot(fx, body, "minute") + ":" + Slot(fx, body, "second");
    assert Filled(fx, body) == prefix + rest;
    assert rest[0] == '$';
    TrimAt(prefix, rest);
    assert prefix[..|prefix| - 1] == y + "-" + m + "-" + d;
  }

  /** With a year and month whose printed forms hold no `$`, and no day, the
      template is cut to `Y-M` (`"1850-02"` for year 1850 and month `"02"`). */
  lemma TrimYearMonth(fx: Foreign, body: Body)
    requires "year" in body && "month" in body && "day" !in body
    requires '$' !in PyStr(body["year"], fx) && '$' !in PyStr(body["month"], fx)
    ensures Trim(Filled(fx, body)) == PyStr(body["year"], fx) + "-" + PyStr(body["month"], fx)
  {
    var y, m := PyStr(body["year"], fx), PyStr(body["month"], fx);
    var prefix := y + "-" + m + "-";
    var rest := Slot(fx, body, "day") + "T" + Slot(fx, body, "hour") + ":" + Slot(fx, body, "minute") + ":" + Slot(fx, body, "second");
    assert Filled(fx, body) == prefix + rest;
    assert rest[0] == '$';
    TrimAt(prefix, rest);
    assert prefix[..|prefix| - 1] == y + "-" + m;
  }

  /** `isoformat_date(date_string, format)` with `""` standing for no format:
      the parsed date (None when no parser accepts it) and whether the format
      failed. With a format, `strptime` is tried first and `dateutil` only
      after it fails; without one, only `dateutil` is tried. */
  function IsoformatDate(fx: Foreign, s: string, format: string): (r: (Option<string>, bool))
    ensures format != "" && fx.strptime(s, format).Some? ==> r == (fx.strptime(s, format), false)
    ensures format != "" && fx.strptime(s, format).None? ==> r == (fx.parseDate(s), true)
    ensures format == "" ==> r == (fx.parseDate(s), false)
    ensures r.1 ==> format != ""
  {
    if format != "" then
      match fx.strptime(s, format)
      case Some(d) => (Some(d), false)
      case None => (fx.parseDate(s), true)
    else (fx.parseDate(s), false)
  }

  /** The six components a destructive combinator removes. */
  const Components: set<string> := {"year", "month", "day", "hour", "minute", "second"}

  /** The date a combinator stores: the parsed date, or the trimmed template
      text when no parser accepts it (`isodate or date`). */
  function StoredDate(fx: Foreign, date: string, format: string): (r: string)
    ensures var iso := IsoformatDate(fx, date, format).0;
      r == if iso.Some? && iso.value != "" then iso.value else date
  {
    match IsoformatDate(fx, date, format).0
    case Some(d) => if d != "" then d else date
    case None => date
  }

  /** The run of every date combinator: an empty body, a body without a
      truthy `year`, or one missing any of year, month and day when no format
      is set, comes back unchanged; otherwise the stored date goes under `key`
      and, when `destructive`, the six components are removed afterwards. */
  function CombineDates(fx: Foreign, body: Body, format: string, key: string, destructive: bool): (r: Body)
    ensures body == map[] || !Truthy(Get(body, "year")) ==> r == body
    ensures !("year" in body && "month" in body && "day" in body) && format == "" ==> r == body
    ensures Truthy(Get(body, "year")) && (("year" in body && "month" in body && "day" in body) || format != "") ==>
      var stored := StoredDate(fx, Trim(Filled(fx, body)), format);
      && (destructive ==> r == body[key := Str(stored)] - Components)
      && (!destructive ==> r == body[key := Str(stored)])
  {
    if body == map[] || !Truthy(Get(body, "year")) then body
    else if !("year" in body && "month" in body && "day" in body) && format == "" then body
    else
      var out := body[key := Str(StoredDate(fx, Trim(Filled(fx, body)), format))];
      if destructive then out - Components else out
  }

  /** A destructive combinator leaves none of the six components behind,
      and keeps every other key of the body. */
  lemma DestructiveCombineClears(fx: Foreign, body: Body, format: string, key: string)
    requires Truthy(Get(body, "year")) && "month" in body && "day" in body
    ensures var r := CombineDates(fx, body, format, key, true);
      (forall c :: c in Components ==> c !in r)
      && (key !in Components ==> key in r)
      && (forall k :: k in body && k !in Components && k != key ==> k in r && r[k] == body[k])
  {
  }
}
