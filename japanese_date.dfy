/**
 * lib/fonts/helpers.ts: the font name used for every weight, and the
 * conversion of a Western calendar date to a Japanese era date such as
 * "令和6年4月1日". The era is chosen from the year alone (the helper's own
 * comment calls this a simplification), so January to April 2019 are
 * labelled 令和元年 and 1989 is 平成元年 from its first day.
 */
module JapaneseDate {
  import opened NumberText
  import opened ResumeTypes

  /** The fields a JavaScript `Date` yields: full year, month from 0, day of month. */
  datatype CalendarDate = CalendarDate(year: int, month0: int, day: int)

  datatype Era = Reiwa | Heisei | Showa

  function EraName(e: Era): string {
    match e
    case Reiwa => "令和"
    case Heisei => "平成"
    case Showa => "昭和"
  }

  /** The Western year before each era's first year. */
  function EraOffset(e: Era): int {
    match e
    case Reiwa => 2018
    case Heisei => 1988
    case Showa => 1925
  }

  function EraOf(year: int): Era {
    if year >= 2019 then Reiwa
    else if year >= 1989 then Heisei
    else Showa
  }

  function EraYear(year: int): int {
    year - EraOffset(EraOf(year))
  }

  /** The first year of an era is written 元, every other year in decimal. */
  function EraYearText(eraYear: int): string {
    if eraYear == 1 then "元" else IntToString(eraYear)
  }

  /** "<era year>年<month>月<day>日", numbers unpadded. */
  function DateText(eraYear: int, month: int, day: int): string {
    EraYearText(eraYear) + "年" + IntToString(month) + "月" + IntToString(day) + "日"
  }

  function ConvertToJapaneseDate(date: CalendarDate): string {
    EraName(EraOf(date.year)) + DateText(EraYear(date.year), date.month0 + 1, date.day)
  }

  /** The font family the documents use; the weight argument is ignored. */
  function JapaneseFont(weight: int): (r: string)
    ensures r == "NotoSansJP"
  {
    "NotoSansJP"
  }

  /** Era and era year together determine the Western year, and each era covers a range of years. */
  lemma EraYearRoundTrip(year: int)
    ensures EraYear(year) + EraOffset(EraOf(year)) == year
    ensures EraOf(year) == Reiwa <==> year >= 2019
    ensures EraOf(year) == Heisei <==> 1989 <= year <= 2018
    ensures EraOf(year) == Showa <==> year < 1989
    ensures EraOf(year) == Heisei ==> 1 <= EraYear(year) <= 30
    ensures EraOf(year) == Showa ==> EraYear(year) <= 63
  {
  }

  /** 元 is printed exactly for the first year of each era: 2019, 1989 and 1926. */
  lemma GannenYears(year: int)
    ensures EraYearText(EraYear(year)) == "元" <==> year == 2019 || year == 1989 || year == 1926
  {
    if EraYear(year) != 1 {
      assert EraYearText(EraYear(year))[0] != '元';
    }
  }

  /** Years before 1926 fall through to 昭和 with an era year of zero or below. */
  lemma ShowaFallback(year: int)
    requires year < 1926
    ensures EraOf(year) == Showa && EraYear(year) <= 0
  {
  }

  // ---- Reading a converted date back ----

  function IndexOf(s: string, c: char): (k: nat)
    ensures k <= |s|
    ensures k < |s| ==> s[k] == c
    ensures c !in s[..k]
  {
    if s == [] then 0
    else if s[0] == c then 0
    else
      var k := 1 + IndexOf(s[1..], c);
      assert s[..k] == [s[0]] + s[1..][..k - 1];
      k
  }

  predicate IsIntText(s: string) {
    1 <= |s| && (s[0] == '-' ==> AllDigits(s[1..])) && (s[0] != '-' ==> AllDigits(s))
  }

  function EraFromName(name: string): Option<Era> {
    if name == "令和" then Some(Reiwa)
    else if name == "平成" then Some(Heisei)
    else if name == "昭和" then Some(Showa)
    else None
  }

  /** Splits `s` at the first `c`; None when `c` does not occur. */
  function SplitAt(s: string, c: char): Option<(string, string)> {
    var k := IndexOf(s, c);
    if k < |s| then Some((s[..k], s[k + 1..])) else None
  }

  function ParseEraYear(t: string): Option<int> {
    if t == "元" then Some(1) else if IsIntText(t) then Some(ParseInt(t)) else None
  }

  /** Reads "<era year>年<month>月<day>日" into its three numbers. */
  function ParseDateBody(body: string): Option<(int, int, int)> {
    var ys := SplitAt(body, '年');
    if ys.None? then None
    else
      var ms := SplitAt(ys.value.1, '月');
      if ms.None? then None
      else
        var ds := SplitAt(ms.value.1, '日');
        if ds.None? then None
        else
          var (y, m, d, tail) := (ys.value.0, ms.value.0, ds.value.0, ds.value.1);
          var eraYear := ParseEraYear(y);
          if eraYear.Some? && tail == [] && IsIntText(m) && IsIntText(d)
          then Some((eraYear.value, ParseInt(m), ParseInt(d)))
          else None
  }

  /** Inverse of ConvertToJapaneseDate: recovers the Western date from its era form. */
  function ParseJapaneseDate(s: string): Option<CalendarDate> {
    if |s| < 2 || EraFromName(s[..2]).None? then None
    else InEra(EraFromName(s[..2]).value, ParseDateBody(s[2..]))
  }

  /** The Western date of an era date read from its body, if the body was read. */
  function InEra(era: Era, parts: Option<(int, int, int)>): Option<CalendarDate> {
    if parts.None? then None
    else Some(CalendarDate(parts.value.0 + EraOffset(era), parts.value.1 - 1, parts.value.2))
  }

  lemma IntTextFacts(i: int)
    ensures IsIntText(IntToString(i)) && ParseInt(IntToString(i)) == i
    ensures '年' !in IntToString(i) && '月' !in IntToString(i) && '日' !in IntToString(i)
  {
    ParseIntToString(i);
    var s := IntToString(i);
    if i < 0 {
      assert s[1..] == NatToString(-i);
      assert forall k :: 0 < k < |s| ==> IsDigit(s[k]) by {
        forall k | 0 < k < |s| ensures IsDigit(s[k]) { assert s[k] == s[1..][k - 1]; }
      }
    }
  }

  lemma SplitAtPrefix(a: string, c: char, b: string)
    requires c !in a
    ensures SplitAt(a + [c] + b, c) == Some((a, b))
  {
    var s := a + [c] + b;
    assert s[|a|] == c;
    assert s[..|a|] == a;
    assert s[|a| + 1..] == b;
  }

  lemma ParseDateBodyParts(y: string, m: string, d: string, eraYear: int)
    requires '年' !in y && '月' !in m && '日' !in d
    requires ParseEraYear(y) == Some(eraYear)
    requires IsIntText(m) && IsIntText(d)
    ensures ParseDateBody(y + "年" + m + "月" + d + "日") == Some((eraYear, ParseInt(m), ParseInt(d)))
  {
    var rest2 := d + ['日'] + [];
    var rest := m + ['月'] + rest2;
    assert y + "年" + m + "月" + d + "日" == y + ['年'] + rest;
    SplitAtPrefix(y, '年', rest);
    SplitAtPrefix(m, '月', rest2);
    SplitAtPrefix(d, '日', []);
  }

  lemma EraNameRoundTrip(era: Era)
    ensures |EraName(era)| == 2 && EraFromName(EraName(era)) == Some(era)
  {
  }

  /** Reading back text shaped like a converted date. */
  lemma ParseParts(era: Era, eraYear: int, month: int, day: int)
    ensures ParseJapaneseDate(EraName(era) + DateText(eraYear, month, day))
         == Some(CalendarDate(eraYear + EraOffset(era), month - 1, day))
  {
    var body := DateText(eraYear, month, day);
    EraYearTextReadsBack(eraYear);
    IntTextFacts(month);
    IntTextFacts(day);
    ParseDateBodyParts(EraYearText(eraYear), IntToString(month), IntToString(day), eraYear);
    ParseWithEra(era, body);
  }

  /** The era name in front is read off, and the rest is parsed as the date body. */
  lemma ParseWithEra(era: Era, body: string)
    ensures ParseJapaneseDate(EraName(era) + body) == InEra(era, ParseDateBody(body))
  {
    var e := EraName(era);
    EraNameRoundTrip(era);
    var s := e + body;
    assert s[..2] == e && s[2..] == body;
  }

  lemma EraYearTextReadsBack(eraYear: int)
    ensures '年' !in EraYearText(eraYear)
    ensures ParseEraYear(EraYearText(eraYear)) == Some(eraYear)
  {
    IntTextFacts(eraYear);
    if eraYear != 1 {
      var y := IntToString(eraYear);
      assert y != "元" by { assert y[0] != '元'; }
    }
  }

  /** The rendered date reads back to the date it was made from, for every date. */
  lemma ParseConvertRoundTrip(date: CalendarDate)
    ensures ParseJapaneseDate(ConvertToJapaneseDate(date)) == Some(date)
  {
    EraYearRoundTrip(date.year);
    ParseParts(EraOf(date.year), EraYear(date.year), date.month0 + 1, date.day);
  }
}
