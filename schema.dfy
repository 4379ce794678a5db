/**
 * lib/schemas/resume.ts: the validator of a résumé record. Each regular
 * expression is written twice: once following the pattern's own structure
 * (the split points a backtracking matcher would find, as an existential),
 * and once as the plain characterisation of the strings it accepts; a lemma
 * shows the two agree. Enumerated fields are datatypes, so the enum checks
 * hold by construction. `Number()` coercions never reject.
 */
module ResumeSchema {
  import opened ResumeTypes
  import opened NumberText

  /** JavaScript's `\s` class. */
  predicate IsWhitespace(c: char) {
    var n := c as int;
    || (9 <= n <= 13) || n == 0x20 || n == 0xA0 || n == 0x1680
    || (0x2000 <= n <= 0x200A) || n == 0x2028 || n == 0x2029
    || n == 0x202F || n == 0x205F || n == 0x3000 || n == 0xFEFF
  }

  // ---- /^\d{4}-\d{2}-\d{2}$/ ----

  /** The date pattern as written: four digits, '-', two digits, '-', two digits, nothing else. */
  predicate MatchesDatePattern(s: string) {
    |s| == 4 + 1 + 2 + 1 + 2
    && AllDigits(s[..4]) && s[4] == '-' && AllDigits(s[5..7]) && s[7] == '-' && AllDigits(s[8..])
  }

  /** Ten characters, '-' at positions 4 and 7, ASCII digits elsewhere. */
  predicate IsDateString(s: string) {
    |s| == 10 && forall i :: 0 <= i < 10 ==> if i == 4 || i == 7 then s[i] == '-' else IsDigit(s[i])
  }

  lemma DatePatternCharacterised(s: string)
    ensures MatchesDatePattern(s) <==> IsDateString(s)
  {
    if IsDateString(s) {
      assert AllDigits(s[5..7]) by {
        forall i | 0 <= i < 2 ensures IsDigit(s[5..7][i]) { assert s[5..7][i] == s[5 + i]; }
      }
      assert AllDigits(s[8..]) by {
        forall i | 0 <= i < 2 ensures IsDigit(s[8..][i]) { assert s[8..][i] == s[8 + i]; }
      }
    }
    if MatchesDatePattern(s) {
      forall i | 0 <= i < 10 ensures if i == 4 || i == 7 then s[i] == '-' else IsDigit(s[i]) {
        if i < 4 { assert s[i] == s[..4][i]; }
        else if 4 < i < 7 { assert s[i] == s[5..7][i - 5]; }
        else if 7 < i { assert s[i] == s[8..][i - 8]; }
      }
    }
  }

  /** A work end date: a date string or exactly the "Current" sentinel. */
  predicate IsWorkEndDate(s: string) {
    MatchesDatePattern(s) || s == CURRENT
  }

  // ---- /^[\+]?[1-9][\d]{0,15}$/ ----

  /** `[1-9][\d]{0,15}`: a leading non-zero digit and at most fifteen more digits. */
  predicate PhoneDigits(t: string) {
    1 <= |t| <= 16 && '1' <= t[0] <= '9' && AllDigits(t)
  }

  /** The phone pattern as written: the optional '+' is matched or skipped. */
  predicate MatchesPhonePattern(s: string) {
    exists p | 0 <= p <= 1 && p <= |s| :: (p == 1 ==> s[0] == '+') && PhoneDigits(s[p..])
  }

  /** An optional '+', then 1 to 16 digits in all, the first not 0; no separators. */
  predicate IsPhone(s: string) {
    var t := if |s| > 0 && s[0] == '+' then s[1..] else s;
    PhoneDigits(t)
  }

  lemma PhonePatternCharacterised(s: string)
    ensures MatchesPhonePattern(s) <==> IsPhone(s)
  {
    if IsPhone(s) {
      if |s| > 0 && s[0] == '+' { assert PhoneDigits(s[1..]); } else { assert s[0..] == s; }
    }
    if MatchesPhonePattern(s) {
      var p :| 0 <= p <= 1 && p <= |s| && (p == 1 ==> s[0] == '+') && PhoneDigits(s[p..]);
      if p == 0 { assert s[0..] == s; }
    }
  }

  // ---- /^[^\s@]+@[^\s@]+\.[^\s@]+$/ ----

  /** `[^\s@]+`: non-empty, no whitespace and no '@'. */
  predicate EmailAtom(t: string) {
    |t| >= 1 && forall i :: 0 <= i < |t| ==> !IsWhitespace(t[i]) && t[i] != '@'
  }

  /** The email pattern as written: local '@' label '.' rest, each part an atom. */
  predicate MatchesEmailPattern(s: string) {
    exists i, j | 0 <= i < j < |s| ::
      EmailAtom(s[..i]) && s[i] == '@' && EmailAtom(s[i + 1..j]) && s[j] == '.' && EmailAtom(s[j + 1..])
  }

  /** A '.' that is neither the first nor the last character. */
  predicate HasInnerDot(d: string) {
    exists m | 0 < m < |d| - 1 :: d[m] == '.'
  }

  /**
   * No whitespace, exactly one '@' with something before it, and a domain
   * after it holding a '.' that is neither its first nor its last character.
   */
  predicate IsEmail(s: string) {
    && (forall i :: 0 <= i < |s| ==> !IsWhitespace(s[i]))
    && exists k | 0 < k < |s| ::
         s[k] == '@' && '@' !in s[..k] && '@' !in s[k + 1..] && HasInnerDot(s[k + 1..])
  }

  lemma EmailPatternSound(s: string)
    requires MatchesEmailPattern(s)
    ensures IsEmail(s)
  {
    var i, j :| 0 <= i < j < |s| && EmailAtom(s[..i]) && s[i] == '@'
      && EmailAtom(s[i + 1..j]) && s[j] == '.' && EmailAtom(s[j + 1..]);
    forall n | 0 <= n < |s| ensures !IsWhitespace(s[n]) && (n != i ==> s[n] != '@') {
      if n < i { assert s[n] == s[..i][n]; }
      else if i < n < j { assert s[n] == s[i + 1..j][n - i - 1]; }
      else if j < n { assert s[n] == s[j + 1..][n - j - 1]; }
    }
    var dom := s[i + 1..];
    assert dom[j - i - 1] == '.';
    assert HasInnerDot(dom);
    assert '@' !in dom by {
      forall n | 0 <= n < |dom| ensures dom[n] != '@' { assert dom[n] == s[i + 1 + n]; }
    }
  }

  lemma EmailPatternComplete(s: string)
    requires IsEmail(s)
    ensures MatchesEmailPattern(s)
  {
    var k :| 0 < k < |s| && s[k] == '@' && '@' !in s[..k] && '@' !in s[k + 1..] && HasInnerDot(s[k + 1..]);
    var dom := s[k + 1..];
    var m :| 0 < m < |dom| - 1 && dom[m] == '.';
    var j := k + 1 + m;
    assert s[j] == dom[m];
    OnlyOneAt(s, k);
    SliceIsAtom(s, 0, k);
    SliceIsAtom(s, k + 1, j);
    SliceIsAtom(s, j + 1, |s|);
    assert s[..k] == s[0..k] && s[j + 1..] == s[j + 1..|s|];
    EmailFromParts(s, k, j);
  }

  /** An '@' at i and a '.' at j splitting s into three atoms is a match. */
  lemma EmailFromParts(s: string, i: int, j: int)
    requires 0 <= i < j < |s| && s[i] == '@' && s[j] == '.'
    requires EmailAtom(s[..i]) && EmailAtom(s[i + 1..j]) && EmailAtom(s[j + 1..])
    ensures MatchesEmailPattern(s)
  {
  }

  /** With no '@' on either side of position k, k holds the only '@'. */
  lemma OnlyOneAt(s: string, k: int)
    requires 0 <= k < |s| && '@' !in s[..k] && '@' !in s[k + 1..]
    ensures forall n :: 0 <= n < |s| && n != k ==> s[n] != '@'
  {
    forall n | 0 <= n < |s| && n != k ensures s[n] != '@' {
      if n < k { assert s[n] == s[..k][n]; } else { assert s[n] == s[k + 1..][n - k - 1]; }
    }
  }

  /** A non-empty stretch of an email with no whitespace and no '@' is an atom. */
  lemma SliceIsAtom(s: string, lo: int, hi: int)
    requires 0 <= lo < hi <= |s|
    requires forall n :: 0 <= n < |s| ==> !IsWhitespace(s[n])
    requires forall n :: lo <= n < hi ==> s[n] != '@'
    ensures EmailAtom(s[lo..hi])
  {
    forall n | 0 <= n < hi - lo ensures !IsWhitespace(s[lo..hi][n]) && s[lo..hi][n] != '@' {
      assert s[lo..hi][n] == s[lo + n];
    }
  }

  lemma EmailPatternCharacterised(s: string)
    ensures MatchesEmailPattern(s) <==> IsEmail(s)
  {
    if MatchesEmailPattern(s) { EmailPatternSound(s); }
    if IsEmail(s) { EmailPatternComplete(s); }
  }

  // ---- The object schemas ----

  /** `z.string().min(n)`: at least n characters. */
  predicate MinLength(s: string, n: nat) {
    |s| >= n
  }

  /** familyDetailSchema: the three strings are required; `age` is coerced and never rejected. */
  predicate ValidFamilyDetail(f: FamilyDetail) {
    MinLength(f.name, 1) && MinLength(f.relationship, 1) && MinLength(f.occupation, 1)
  }

  /**
   * physicalStatsSchema: height and weight are coerced, the blood type is any
   * optional string and the hand an enum, so no value of the type is rejected.
   */
  predicate ValidPhysicalStats(p: PhysicalStats) {
    true
  }

  predicate ValidPersonalInfo(p: PersonalInfo) {
    && MinLength(p.fullName, 1)
    && MinLength(p.katakanaName, 1)
    && MatchesDatePattern(p.birthDate)
    && MinLength(p.currentAddress, 1)
    && MatchesEmailPattern(p.email)
    && MatchesPhonePattern(p.phone)
    && (p.familyDetails.Some? ==> forall i :: 0 <= i < |p.familyDetails.value| ==> ValidFamilyDetail(p.familyDetails.value[i]))
    && (p.physicalStats.Some? ==> ValidPhysicalStats(p.physicalStats.value))
  }

  predicate ValidEducation(e: EducationEntry) {
    MinLength(e.schoolName, 1) && MatchesDatePattern(e.startDate) && MatchesDatePattern(e.endDate)
  }

  predicate ValidWork(w: WorkEntry) {
    && MinLength(w.companyName, 1)
    && MatchesDatePattern(w.startDate)
    && IsWorkEndDate(w.endDate)
    && MinLength(w.role, 1)
  }

  predicate ValidMotivation(m: Motivation) {
    MinLength(m.reasonForApplying, 10) && MinLength(m.selfPR, 10)
  }

  /** resumeSchema: the record passes validation. */
  predicate ValidResume(d: ResumeData) {
    && ValidPersonalInfo(d.personalInfo)
    && (forall i :: 0 <= i < |d.education| ==> ValidEducation(d.education[i]))
    && (forall i :: 0 <= i < |d.workHistory| ==> ValidWork(d.workHistory[i]))
    && ValidMotivation(d.motivation)
  }

  // ---- Properties ----

  /** A work end date is "Current" or a 10-character date; the empty string is never one. */
  lemma WorkEndDateCharacterised(s: string)
    ensures IsWorkEndDate(s) <==> s == CURRENT || IsDateString(s)
    ensures !IsWorkEndDate("") && !MatchesDatePattern(CURRENT)
  {
    DatePatternCharacterised(s);
    DatePatternCharacterised("");
    DatePatternCharacterised(CURRENT);
  }

  /** Education dates do not accept the "Current" sentinel that work end dates do. */
  lemma EducationRejectsCurrent(e: EducationEntry)
    requires e.endDate == CURRENT
    ensures !ValidEducation(e)
  {
    DatePatternCharacterised(e.endDate);
  }

  /** The optional sections, the tier, the skills and the numbers never make a record invalid. */
  lemma ValidityIgnoresOptionalSections(d: ResumeData, t: VisaTier, ps: Option<PhysicalStats>, sk: Skills, ja: Option<string>, photo: Option<string>)
    ensures ValidResume(d) <==>
      ValidResume(d.(tier := t, skills := sk,
                     personalInfo := d.personalInfo.(physicalStats := ps, japanAddress := ja, photoUrl := photo)))
  {
  }

  /** When a family list is present, every member of a valid record has a name, relationship and occupation. */
  lemma FamilyMembersChecked(d: ResumeData, i: nat)
    requires ValidResume(d) && d.personalInfo.familyDetails.Some? && i < |d.personalInfo.familyDetails.value|
    ensures d.personalInfo.familyDetails.value[i].name != ""
    ensures d.personalInfo.familyDetails.value[i].relationship != ""
    ensures d.personalInfo.familyDetails.value[i].occupation != ""
  {
    assert ValidFamilyDetail(d.personalInfo.familyDetails.value[i]);
  }

  /** The sample record of lib/test-data.ts. */
  function SampleData(): ResumeData {
    ResumeData(
      ENGINEER,
      PersonalInfo("山田 太郎", "ヤマダ タロウ", Male, "1990-01-01", "東京都渋谷区...", None,
                   "taro.yamada@example.com", "090-1234-5678", None, None, None),
      [EducationEntry("Test University", "2010-04", "2014-03", Graduated)],
      [WorkEntry("Tech Company", "2014-04", CURRENT, "Developer", Some("Frontend development"))],
      Skills(Some(N2), None, Some(["React", "TypeScript"])),
      Motivation("御社のビジョンに共感しました。", "粘り強い性格です。"))
  }

  /**
   * The sample record fails the validator: its education dates have no day,
   * its phone has a leading 0 and hyphens, and its self-PR is 9 characters.
   * Its birth date and email are accepted.
   */
  lemma SampleDataRejected()
    ensures !ValidResume(SampleData())
    ensures MatchesDatePattern(SampleData().personalInfo.birthDate)
    ensures MatchesEmailPattern(SampleData().personalInfo.email)
    ensures !MatchesDatePattern(SampleData().education[0].startDate)
    ensures !MatchesPhonePattern(SampleData().personalInfo.phone)
    ensures |SampleData().motivation.selfPR| == 9 && !ValidMotivation(SampleData().motivation)
  {
    var d := SampleData();
    SampleDatesChecked(d.personalInfo.birthDate, d.education[0].startDate);
    SamplePhoneRejected(d.personalInfo.phone);
    SampleEmailAccepted(d.personalInfo.email);
  }

  lemma SampleDatesChecked(birth: string, start: string)
    requires birth == "1990-01-01" && start == "2010-04"
    ensures MatchesDatePattern(birth) && !MatchesDatePattern(start)
  {
    DatePatternCharacterised(birth);
    DatePatternCharacterised(start);
  }

  lemma SamplePhoneRejected(phone: string)
    requires phone == "090-1234-5678"
    ensures !MatchesPhonePattern(phone)
  {
    PhonePatternCharacterised(phone);
  }

  lemma SampleEmailAccepted(e: string)
    requires e == "taro.yamada@example.com"
    ensures MatchesEmailPattern(e)
  {
    assert e[11] == '@' && e[19] == '.';
    assert EmailAtom(e[..11]) && EmailAtom(e[12..19]) && EmailAtom(e[20..]);
  }
}
