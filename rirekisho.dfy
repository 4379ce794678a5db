/**
 * components/pdf/RirekishoDocument.tsx: the Japanese résumé (履歴書) used
 * for the SSW and ENGINEER tiers. The sheet is a title, the date line, and
 * one table whose rows come in this order: five personal rows, the 学歴・職歴
 * banner, the 学歴 header, one row per education entry, the 職歴 header, one
 * row per work entry, 以上, then 志望動機, 自己PR and 技能・資格. Email, phone,
 * education end dates and work roles, end dates and descriptions are not
 * printed. The date is a parameter instead of a clock read.
 */
module Rirekisho {
  import opened ResumeTypes
  import opened PdfText
  import opened JapaneseDate

  datatype RirekishoSheet = RirekishoSheet(title: string, dateLine: string, rows: seq<Row>)

  function GenderJa(g: Gender): string {
    if g == Male then "男" else "女"
  }

  function StatusJa(s: EducationStatus): string {
    if s == Graduated then "卒業" else "中退"
  }

  function PersonalRows(p: PersonalInfo): seq<Row> {
    [ Row(["氏名", p.fullName]),
      Row(["フリガナ", p.katakanaName]),
      Row(["生年月日", p.birthDate]),
      Row(["性別", GenderJa(p.gender)]),
      Row(["住所", p.currentAddress]) ]
  }

  /** Start date, an empty cell, then the school and 卒業 or 中退. */
  function EducationRow(e: EducationEntry): Row {
    Row([e.startDate, "", e.schoolName + " " + StatusJa(e.status)])
  }

  /** Start date, an empty cell, then the company followed by 入社. */
  function WorkRow(w: WorkEntry): Row {
    Row([w.startDate, "", w.companyName + " 入社"])
  }

  function EducationRows(es: seq<EducationEntry>): seq<Row> {
    seq(|es|, i requires 0 <= i < |es| => EducationRow(es[i]))
  }

  function WorkRows(ws: seq<WorkEntry>): seq<Row> {
    seq(|ws|, i requires 0 <= i < |ws| => WorkRow(ws[i]))
  }

  predicate NonEmptyList(xs: Option<seq<string>>) {
    xs.Some? && |xs.value| > 0
  }

  /** The lines of the 技能・資格 cell: JLPT level, technical skills, SSW certificates. */
  function SkillLines(s: Skills): seq<string> {
    (if s.jlptLevel.Some? then ["日本語能力試験: " + JlptLabel(s.jlptLevel.value)] else [])
    + (if NonEmptyList(s.technicalSkills) then ["技術スキル: " + Join(s.technicalSkills.value, ", ")] else [])
    + (if NonEmptyList(s.sswCertificates) then ["SSW資格: " + Join(s.sswCertificates.value, ", ")] else [])
  }

  /** The 技能・資格 cell: the skill lines, one per line. */
  function SkillsCell(s: Skills): string {
    Join(SkillLines(s), "\n")
  }

  /** The rows above the education entries: the personal block, the 学歴・職歴 banner and the 学歴 header. */
  function OpeningRows(p: PersonalInfo): seq<Row> {
    PersonalRows(p) + [Row(["学歴・職歴"]), Row(["学歴"])]
  }

  /** The rows after the work entries: 以上, then 志望動機, 自己PR and 技能・資格. */
  function ClosingRows(d: ResumeData): seq<Row> {
    [ Row(["以上"]),
      Row(["志望動機", d.motivation.reasonForApplying]),
      Row(["自己PR", d.motivation.selfPR]),
      Row(["技能・資格", SkillsCell(d.skills)]) ]
  }

  /** The table of the sheet, top to bottom. */
  function TableRows(d: ResumeData): seq<Row> {
    OpeningRows(d.personalInfo) + EducationRows(d.education) + [Row(["職歴"])]
    + WorkRows(d.workHistory) + ClosingRows(d)
  }

  function RirekishoDocument(d: ResumeData, today: CalendarDate): RirekishoSheet {
    RirekishoSheet("履歴書", ConvertToJapaneseDate(today) + " 現在", TableRows(d))
  }

  // ---- Properties ----

  /**
   * Where every row sits: the headers and 以上 are present even for empty
   * lists, there are no placeholder rows, and entry k of each list is row k
   * of its block, in list order.
   */
  lemma RowLayout(d: ResumeData, today: CalendarDate)
    ensures var rows := RirekishoDocument(d, today).rows;
      var e, w := |d.education|, |d.workHistory|;
      && |rows| == 12 + e + w
      && rows[..5] == PersonalRows(d.personalInfo)
      && rows[5] == Row(["学歴・職歴"]) && rows[6] == Row(["学歴"])
      && (forall k :: 0 <= k < e ==> rows[7 + k] == EducationRow(d.education[k]))
      && rows[7 + e] == Row(["職歴"])
      && (forall k :: 0 <= k < w ==> rows[8 + e + k] == WorkRow(d.workHistory[k]))
      && rows[8 + e + w..] == [ Row(["以上"]),
                                Row(["志望動機", d.motivation.reasonForApplying]),
                                Row(["自己PR", d.motivation.selfPR]),
                                Row(["技能・資格", SkillsCell(d.skills)]) ]
  {
    var rows := RirekishoDocument(d, today).rows;
    assert rows == TableRows(d);
    TableBlocks(d);
    OpeningFacts(d.personalInfo);
    assert rows[..5] == rows[..7][..5];
    assert rows[5] == rows[..7][5] && rows[6] == rows[..7][6];
  }

  /** The opening block: the five personal rows, then the two headers. */
  lemma OpeningFacts(p: PersonalInfo)
    ensures |OpeningRows(p)| == 7
    ensures OpeningRows(p)[..5] == PersonalRows(p)
    ensures OpeningRows(p)[5] == Row(["学歴・職歴"]) && OpeningRows(p)[6] == Row(["学歴"])
  {
  }

  /** Where the entry rows and the fixed rows of the table sit. */
  lemma TableBlocks(d: ResumeData)
    ensures var rows := TableRows(d);
      var e, w := |d.education|, |d.workHistory|;
      && |rows| == 12 + e + w
      && rows[..7] == OpeningRows(d.personalInfo)
      && (forall k :: 0 <= k < e ==> rows[7 + k] == EducationRow(d.education[k]))
      && rows[7 + e] == Row(["職歴"])
      && (forall k :: 0 <= k < w ==> rows[8 + e + k] == WorkRow(d.workHistory[k]))
      && rows[8 + e + w..] == ClosingRows(d)
  {
    FixedRows(d);
    forall k | 0 <= k < |d.education| ensures TableRows(d)[7 + k] == EducationRow(d.education[k]) {
      EducationRowAt(d, k);
    }
    forall k | 0 <= k < |d.workHistory| ensures TableRows(d)[8 + |d.education| + k] == WorkRow(d.workHistory[k]) {
      WorkRowAt(d, k);
    }
  }

  /** The table's length and its three fixed blocks. */
  lemma FixedRows(d: ResumeData)
    ensures var rows := TableRows(d);
      var e, w := |d.education|, |d.workHistory|;
      && |rows| == 12 + e + w
      && rows[..7] == OpeningRows(d.personalInfo)
      && rows[7 + e] == Row(["職歴"])
      && rows[8 + e + w..] == ClosingRows(d)
  {
    var p, x, y := OpeningRows(d.personalInfo), EducationRows(d.education), WorkRows(d.workHistory);
    assert |p| == 7 && |x| == |d.education| && |y| == |d.workHistory|;
    ConcatLayout(p, x, Row(["職歴"]), y, ClosingRows(d));
  }

  /** Education entry k is row 7 + k. */
  lemma EducationRowAt(d: ResumeData, k: nat)
    requires k < |d.education|
    ensures TableRows(d)[7 + k] == EducationRow(d.education[k])
  {
    var p, x, y := OpeningRows(d.personalInfo), EducationRows(d.education), WorkRows(d.workHistory);
    assert |p| == 7 && |x| == |d.education|;
    ConcatLayout(p, x, Row(["職歴"]), y, ClosingRows(d));
    assert x[k] == EducationRow(d.education[k]);
  }

  /** Work entry k is the k-th row after the 職歴 header. */
  lemma WorkRowAt(d: ResumeData, k: nat)
    requires k < |d.workHistory|
    ensures TableRows(d)[8 + |d.education| + k] == WorkRow(d.workHistory[k])
  {
    var p, x, y := OpeningRows(d.personalInfo), EducationRows(d.education), WorkRows(d.workHistory);
    assert |p| == 7 && |x| == |d.education| && |y| == |d.workHistory|;
    ConcatLayout(p, x, Row(["職歴"]), y, ClosingRows(d));
    assert y[k] == WorkRow(d.workHistory[k]);
  }

  /** Where each part of `p + x + [m] + y + t` lands. */
  lemma ConcatLayout(p: seq<Row>, x: seq<Row>, m: Row, y: seq<Row>, t: seq<Row>)
    ensures var r := p + x + [m] + y + t;
      && |r| == |p| + |x| + 1 + |y| + |t|
      && r[..|p|] == p
      && (forall k :: 0 <= k < |x| ==> r[|p| + k] == x[k])
      && r[|p| + |x|] == m
      && (forall k :: 0 <= k < |y| ==> r[|p| + |x| + 1 + k] == y[k])
      && r[|p| + |x| + 1 + |y|..] == t
  {
  }

  /**
   * The personal block: name, furigana, birth date, gender and address, each
   * a label and its raw value, except gender, which prints 男 for Male and 女
   * for Female, so the two genders print differently.
   */
  lemma PersonalBlock(p: PersonalInfo)
    ensures |PersonalRows(p)| == 5
    ensures forall k :: 0 <= k < 5 ==> |PersonalRows(p)[k].cells| == 2
    ensures PersonalRows(p)[0].cells[1] == p.fullName && PersonalRows(p)[1].cells[1] == p.katakanaName
    ensures PersonalRows(p)[2].cells[1] == p.birthDate && PersonalRows(p)[4].cells[1] == p.currentAddress
    ensures PersonalRows(p)[3].cells[1] == (if p.gender == Male then "男" else "女")
    ensures forall q: PersonalInfo :: PersonalRows(q)[3] == PersonalRows(p)[3] <==> q.gender == p.gender
  {
  }

  /**
   * The sheet depends on these fields only. Two records that agree on them
   * print the same, so email, phone, photo, tier, the TITP sections,
   * education end dates and a job's role, end date and description never
   * change the output.
   */
  predicate SamePrintedFields(d1: ResumeData, d2: ResumeData) {
    && d1.personalInfo.fullName == d2.personalInfo.fullName
    && d1.personalInfo.katakanaName == d2.personalInfo.katakanaName
    && d1.personalInfo.birthDate == d2.personalInfo.birthDate
    && d1.personalInfo.gender == d2.personalInfo.gender
    && d1.personalInfo.currentAddress == d2.personalInfo.currentAddress
    && |d1.education| == |d2.education|
    && (forall k :: 0 <= k < |d1.education| ==>
          && d1.education[k].startDate == d2.education[k].startDate
          && d1.education[k].schoolName == d2.education[k].schoolName
          && d1.education[k].status == d2.education[k].status)
    && |d1.workHistory| == |d2.workHistory|
    && (forall k :: 0 <= k < |d1.workHistory| ==>
          && d1.workHistory[k].startDate == d2.workHistory[k].startDate
          && d1.workHistory[k].companyName == d2.workHistory[k].companyName)
    && d1.motivation == d2.motivation
    && d1.skills == d2.skills
  }

  lemma PrintedFieldsDetermineSheet(d1: ResumeData, d2: ResumeData, today: CalendarDate)
    requires SamePrintedFields(d1, d2)
    ensures RirekishoDocument(d1, today) == RirekishoDocument(d2, today)
  {
    assert EducationRows(d1.education) == EducationRows(d2.education);
    assert WorkRows(d1.workHistory) == WorkRows(d2.workHistory);
  }

  /** Email, phone, tier, role, end dates and descriptions are not printed. */
  lemma UnprintedFieldsIgnored(d: ResumeData, today: CalendarDate, email: string, phone: string, tier: VisaTier,
                               role: string, endDate: string, description: Option<string>)
    ensures var d2 := d.(tier := tier, personalInfo := d.personalInfo.(email := email, phone := phone),
                         workHistory := seq(|d.workHistory|, i requires 0 <= i < |d.workHistory| =>
                           d.workHistory[i].(role := role, endDate := endDate, description := description)),
                         education := seq(|d.education|, i requires 0 <= i < |d.education| =>
                           d.education[i].(endDate := endDate)));
      RirekishoDocument(d2, today) == RirekishoDocument(d, today)
  {
    var d2 := d.(tier := tier, personalInfo := d.personalInfo.(email := email, phone := phone),
                 workHistory := seq(|d.workHistory|, i requires 0 <= i < |d.workHistory| =>
                   d.workHistory[i].(role := role, endDate := endDate, description := description)),
                 education := seq(|d.education|, i requires 0 <= i < |d.education| =>
                   d.education[i].(endDate := endDate)));
    PrintedFieldsDetermineSheet(d2, d, today);
  }

  /**
   * The skills cell: a JLPT line exactly when a level is set (so the level
   * "None" still prints), then the technical-skills line, then the SSW line,
   * each only for a non-empty list, items joined by ", ".
   */
  lemma SkillLinesShape(s: Skills)
    ensures |SkillLines(s)| ==
      (if s.jlptLevel.Some? then 1 else 0) + (if NonEmptyList(s.technicalSkills) then 1 else 0)
      + (if NonEmptyList(s.sswCertificates) then 1 else 0)
    ensures s.jlptLevel.Some? ==> SkillLines(s)[0] == "日本語能力試験: " + JlptLabel(s.jlptLevel.value)
    ensures s.jlptLevel == Some(NoLevel) ==> SkillLines(s)[0] == "日本語能力試験: None"
    ensures NonEmptyList(s.technicalSkills) ==>
      SkillLines(s)[if s.jlptLevel.Some? then 1 else 0] == "技術スキル: " + Join(s.technicalSkills.value, ", ")
    ensures NonEmptyList(s.sswCertificates) ==>
      SkillLines(s)[|SkillLines(s)| - 1] == "SSW資格: " + Join(s.sswCertificates.value, ", ")
  {
  }
}
