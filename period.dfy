/**
 * Period aliases of get_period (main.py:191-198): the reply is lower-cased and
 * 'сегодня' (today) or 'вчера' (yesterday) picks a fixed one-day range; any
 * other reply gives no range and only a request for explicit dates.
 */
module Period {
  import opened Common

  /** `dateFrom`/`dateTo` of the report request, as 'YYYY-MM-DD' strings. */
  datatype DateRange = DateRange(start: string, end: string)

  const TodayAlias: string := "сегодня"
  const YesterdayAlias: string := "вчера"
  const TodayDate: string := "2023-01-07"
  const YesterdayDate: string := "2023-01-06"

  predicate IsUpper(c: char)
  {
    || ('A' <= c <= 'Z')
    || ('\U{0410}' <= c <= '\U{042F}')   // А..Я
    || ('\U{0400}' <= c <= '\U{040F}')   // Ѐ..Џ, among them Ё
  }

  /** `str.lower` on one character, for Latin and Cyrillic capitals. */
  function LowerChar(c: char): (l: char)
    ensures !IsUpper(l)
    ensures !IsUpper(c) ==> l == c
  {
    if 'A' <= c <= 'Z' then (c as int + 32) as char
    else if '\U{0410}' <= c <= '\U{042F}' then (c as int + 0x20) as char
    else if '\U{0400}' <= c <= '\U{040F}' then (c as int + 0x50) as char
    else c
  }

  predicate IsLower(c: char)
  {
    || ('a' <= c <= 'z')
    || ('\U{0430}' <= c <= '\U{044F}')   // а..я
    || ('\U{0450}' <= c <= '\U{045F}')   // ѐ..џ, among them ё
  }

  /** `str.upper` on one character, the reverse mapping, written on its own. */
  function UpperChar(c: char): (u: char)
    ensures !IsLower(u)
    ensures !IsLower(c) ==> u == c
  {
    if 'a' <= c <= 'z' then (c as int - 32) as char
    else if '\U{0430}' <= c <= '\U{044F}' then (c as int - 0x20) as char
    else if '\U{0450}' <= c <= '\U{045F}' then (c as int - 0x50) as char
    else c
  }

  /** Lower-casing a capital gives the lower-case letter that upper-cases back to it. */
  lemma LowerOfUpper(c: char)
    requires IsUpper(c)
    ensures IsLower(LowerChar(c)) && UpperChar(LowerChar(c)) == c
  {
  }

  /** Upper-casing a lower-case letter gives the capital that lower-cases back to it. */
  lemma UpperOfLower(c: char)
    requires IsLower(c)
    ensures IsUpper(UpperChar(c)) && LowerChar(UpperChar(c)) == c
  {
  }

  /** `str.lower`: every character lower-cased in place. */
  function Lower(s: string): (r: string)
    ensures |r| == |s|
    ensures forall i :: 0 <= i < |s| ==> r[i] == LowerChar(s[i])
    ensures forall i :: 0 <= i < |s| ==> !IsUpper(r[i])
  {
    seq(|s|, i requires 0 <= i < |s| => LowerChar(s[i]))
  }

  /** Lower-casing twice is lower-casing once. */
  lemma LowerIdempotent(s: string)
    ensures Lower(Lower(s)) == Lower(s)
  {
  }

  /** The range a period reply selects, or None when it names no alias. */
  function Resolve(text: string): (r: Option<DateRange>)
    ensures r.Some? <==> Lower(text) == TodayAlias || Lower(text) == YesterdayAlias
    ensures r.Some? ==> r.value.start == r.value.end
  {
    var period := Lower(text);
    if period == TodayAlias then Some(DateRange(TodayDate, TodayDate))
    else if period == YesterdayAlias then Some(DateRange(YesterdayDate, YesterdayDate))
    else None
  }

  /** 'сегодня' in any letter case gives 2023-01-07 to 2023-01-07. */
  lemma ResolveToday(text: string)
    requires Lower(text) == TodayAlias
    ensures Resolve(text) == Some(DateRange("2023-01-07", "2023-01-07"))
  {
  }

  /** 'вчера' in any letter case gives 2023-01-06 to 2023-01-06. */
  lemma ResolveYesterday(text: string)
    requires Lower(text) == YesterdayAlias
    ensures Resolve(text) == Some(DateRange("2023-01-06", "2023-01-06"))
  {
    assert TodayAlias != YesterdayAlias by {
      assert |TodayAlias| == 7 && |YesterdayAlias| == 5;
    }
  }

  /** Resolution depends only on the lower-cased reply. */
  lemma ResolveIgnoresCase(text: string)
    ensures Resolve(Lower(text)) == Resolve(text)
  {
    LowerIdempotent(text);
  }

  /** The capitalised alias 'Сегодня' is recognised. */
  lemma ResolveCapitalisedToday()
    ensures Resolve("Сегодня") == Some(DateRange(TodayDate, TodayDate))
  {
    assert Lower("Сегодня") == TodayAlias;
  }
}
