/**
 * components/pdf/BioDataDocument.tsx: the English Bio-Data sheet used for
 * the TITP tier. It prints the title, a "PHOTO" box (the photo itself is
 * never drawn), then numbered sections: personal details, family details
 * (only when there are family members), education, employment and skills.
 * Motivation is not printed.
 */
module BioData {
  import opened ResumeTypes
  import opened NumberText
  import opened PdfText

  /** A numbered section: its heading, its table header (empty for label rows) and its rows. */
  datatype Section = Section(heading: string, columns: seq<string>, rows: seq<Row>)

  datatype BioDataSheet = BioDataSheet(title: string, photoBox: string, sections: seq<Section>)

  const PERSONAL_HEADING: string := "1. PERSONAL DETAILS"
  const FAMILY_HEADING: string := "2. FAMILY DETAILS"
  const EDUCATION_HEADING: string := "3. EDUCATIONAL BACKGROUND"
  const EMPLOYMENT_HEADING: string := "4. EMPLOYMENT HISTORY"
  const SKILLS_HEADING: string := "5. SKILLS & QUALIFICATIONS"
  const NO_EDUCATION: string := "No education history provided."
  const NO_WORK: string := "No work history provided."

  /** `value || "N/A"`: an absent or empty blood type prints as N/A. */
  function BloodTypeText(b: Option<string>): string {
    if b.Some? && b.value != "" then b.value else "N/A"
  }

  function PhysicalRows(ps: Option<PhysicalStats>): seq<Row> {
    if ps.None? then []
    else
      var s := ps.value;
      [ Row(["Height / Weight:", NatToString(s.heightCm) + " cm / " + NatToString(s.weightKg) + " kg"]),
        Row(["Blood Type:", BloodTypeText(s.bloodType)]),
        Row(["Dominant Hand:", HandLabel(s.handz)]) ]
  }

  function PersonalSection(p: PersonalInfo): Section {
    Section(PERSONAL_HEADING, [],
      [ Row(["Full Name:", p.fullName]),
        Row(["Katakana Name:", p.katakanaName]),
        Row(["Gender:", GenderLabel(p.gender)]),
        Row(["Date of Birth:", p.birthDate]),
        Row(["Current Address:", p.currentAddress]),
        Row(["Email:", p.email]),
        Row(["Phone:", p.phone]) ]
      + PhysicalRows(p.physicalStats))
  }

  predicate HasFamily(fd: Option<seq<FamilyDetail>>) {
    fd.Some? && |fd.value| > 0
  }

  function FamilyRow(f: FamilyDetail): Row {
    Row([f.relationship, f.name, NatToString(f.age), f.occupation])
  }

  function FamilySections(fd: Option<seq<FamilyDetail>>): seq<Section> {
    if HasFamily(fd) then
      var fs := fd.value;
      [Section(FAMILY_HEADING, ["Relationship", "Name", "Age", "Occupation"],
               seq(|fs|, i requires 0 <= i < |fs| => FamilyRow(fs[i])))]
    else []
  }

  /** "<start> - <end>", the school, and the status word. */
  function EducationRow(e: EducationEntry): Row {
    Row([e.startDate + " - " + e.endDate, e.schoolName, StatusLabel(e.status)])
  }

  function EducationSection(es: seq<EducationEntry>): Section {
    Section(EDUCATION_HEADING, ["Period", "School Name", "Status"],
      seq(|es|, i requires 0 <= i < |es| => EducationRow(es[i]))
      + (if |es| == 0 then [Row([NO_EDUCATION])] else []))
  }

  /** The role, followed by a new line and the description when the description is non-empty. */
  function RoleText(w: WorkEntry): string {
    w.role + (if w.description.Some? && w.description.value != "" then "\n" + w.description.value else "")
  }

  /** "<start> - <end>" with the end date as stored, the company, and the role text. */
  function WorkRow(w: WorkEntry): Row {
    Row([w.startDate + " - " + w.endDate, w.companyName, RoleText(w)])
  }

  function EmploymentSection(ws: seq<WorkEntry>): Section {
    Section(EMPLOYMENT_HEADING, ["Period", "Company", "Role & Description"],
      seq(|ws|, i requires 0 <= i < |ws| => WorkRow(ws[i]))
      + (if |ws| == 0 then [Row([NO_WORK])] else []))
  }

  function SkillsSection(s: Skills): Section {
    Section(SKILLS_HEADING, [],
      [Row(["Japanese Level:", if s.jlptLevel.Some? then JlptLabel(s.jlptLevel.value) else "None"])]
      + (if s.sswCertificates.Some? && |s.sswCertificates.value| > 0
         then [Row(["SSW Certificates:", Join(s.sswCertificates.value, ", ")])] else [])
      + (if s.technicalSkills.Some? && |s.technicalSkills.value| > 0
         then [Row(["Technical Skills:", Join(s.technicalSkills.value, ", ")])] else []))
  }

  function BioDataDocument(d: ResumeData): BioDataSheet {
    BioDataSheet("BIO-DATA", "PHOTO",
      [PersonalSection(d.personalInfo)]
      + FamilySections(d.personalInfo.familyDetails)
      + [EducationSection(d.education), EmploymentSection(d.workHistory), SkillsSection(d.skills)])
  }

  function Headings(secs: seq<Section>): seq<string> {
    seq(|secs|, i requires 0 <= i < |secs| => secs[i].heading)
  }

  // ---- Properties ----

  /**
   * The sections come in numbered order, and section 2 is present exactly
   * when the family list exists and is non-empty.
   */
  lemma SectionOrder(d: ResumeData)
    ensures Headings(BioDataDocument(d).sections) ==
      [PERSONAL_HEADING] + (if HasFamily(d.personalInfo.familyDetails) then [FAMILY_HEADING] else [])
      + [EDUCATION_HEADING, EMPLOYMENT_HEADING, SKILLS_HEADING]
    ensures FAMILY_HEADING in Headings(BioDataDocument(d).sections) <==> HasFamily(d.personalInfo.familyDetails)
  {
    var h := Headings(BioDataDocument(d).sections);
    if !HasFamily(d.personalInfo.familyDetails) {
      assert h == [PERSONAL_HEADING, EDUCATION_HEADING, EMPLOYMENT_HEADING, SKILLS_HEADING];
      assert FAMILY_HEADING != EDUCATION_HEADING && FAMILY_HEADING != EMPLOYMENT_HEADING
        && FAMILY_HEADING != SKILLS_HEADING && FAMILY_HEADING != PERSONAL_HEADING by {
        assert FAMILY_HEADING[0] != PERSONAL_HEADING[0] && FAMILY_HEADING[0] != EDUCATION_HEADING[0];
        assert FAMILY_HEADING[0] != EMPLOYMENT_HEADING[0] && FAMILY_HEADING[0] != SKILLS_HEADING[0];
      }
    } else {
      assert h[1] == FAMILY_HEADING;
    }
  }

  /** A TITP candidate with an empty family list gets no family table. */
  lemma EmptyFamilyOmitted(d: ResumeData)
    requires d.personalInfo.familyDetails == Some([])
    ensures |BioDataDocument(d).sections| == 4
    ensures forall k :: 0 <= k < 4 ==> BioDataDocument(d).sections[k].heading != FAMILY_HEADING
  {
    SectionOrder(d);
    assert Headings(BioDataDocument(d).sections)[1] == EDUCATION_HEADING;
  }

  /** Every family member is one row, in list order, with the age written in decimal. */
  lemma FamilyRows(fs: seq<FamilyDetail>)
    requires |fs| > 0
    ensures var secs := FamilySections(Some(fs));
      |secs| == 1 && |secs[0].rows| == |fs|
      && forall k :: 0 <= k < |fs| ==>
           secs[0].rows[k].cells == [fs[k].relationship, fs[k].name, NatToString(fs[k].age), fs[k].occupation]
  {
  }

  /**
   * The personal section has seven label rows with their raw values (gender
   * as "Male" or "Female"), then, when physical stats are present, height and
   * weight in decimal, the blood type (N/A when absent or empty) and the
   * dominant hand.
   */
  lemma PersonalRowsShape(p: PersonalInfo)
    ensures |PersonalSection(p).rows| == 7 + (if p.physicalStats.Some? then 3 else 0)
    ensures p.physicalStats.Some? ==>
      PersonalSection(p).rows[8].cells[1] ==
        (if p.physicalStats.value.bloodType.Some? && p.physicalStats.value.bloodType.value != ""
         then p.physicalStats.value.bloodType.value else "N/A")
    ensures PersonalSection(p).rows[..7] ==
      [ Row(["Full Name:", p.fullName]),
        Row(["Katakana Name:", p.katakanaName]),
        Row(["Gender:", GenderLabel(p.gender)]),
        Row(["Date of Birth:", p.birthDate]),
        Row(["Current Address:", p.currentAddress]),
        Row(["Email:", p.email]),
        Row(["Phone:", p.phone]) ]
    ensures p.physicalStats.Some? ==>
      && PersonalSection(p).rows[7].cells ==
           ["Height / Weight:", NatToString(p.physicalStats.value.heightCm) + " cm / "
                                + NatToString(p.physicalStats.value.weightKg) + " kg"]
      && PersonalSection(p).rows[9].cells == ["Dominant Hand:", HandLabel(p.physicalStats.value.handz)]
  {
  }

  /**
   * The education and employment tables: one row per entry in list order,
   * or, for an empty list, exactly one placeholder row.
   */
  lemma TableRows(d: ResumeData)
    ensures var edu := EducationSection(d.education).rows;
      && |edu| == (if |d.education| == 0 then 1 else |d.education|)
      && (|d.education| == 0 ==> edu == [Row([NO_EDUCATION])])
      && (forall k :: 0 <= k < |d.education| ==> edu[k] == EducationRow(d.education[k]))
    ensures var work := EmploymentSection(d.workHistory).rows;
      && |work| == (if |d.workHistory| == 0 then 1 else |d.workHistory|)
      && (|d.workHistory| == 0 ==> work == [Row([NO_WORK])])
      && (forall k :: 0 <= k < |d.workHistory| ==> work[k] == WorkRow(d.workHistory[k]))
  {
  }

  /**
   * A job whose end date is "Current" prints the word verbatim in its
   * period, and the description follows the role on a new line only when it
   * is non-empty.
   */
  lemma CurrentJobPeriod(w: WorkEntry)
    ensures w.endDate == CURRENT ==> WorkRow(w).cells[0] == w.startDate + " - Current"
    ensures (w.description.None? || w.description == Some("")) ==> RoleText(w) == w.role
    ensures w.description.Some? && w.description.value != "" ==>
      RoleText(w) == w.role + "\n" + w.description.value
  {
  }

  /**
   * The sheet does not depend on the tier, the photo, the Japan address or
   * the motivation: changing any of them prints the same sheet.
   */
  lemma UnprintedFieldsIgnored(d: ResumeData, tier: VisaTier, photoUrl: Option<string>,
                               japanAddress: Option<string>, m: Motivation)
    ensures BioDataDocument(d.(tier := tier, motivation := m,
              personalInfo := d.personalInfo.(photoUrl := photoUrl, japanAddress := japanAddress)))
         == BioDataDocument(d)
  {
  }

  /** The Japanese level always prints, "None" when unset; SSW certificates precede technical skills. */
  lemma SkillsRows(s: Skills)
    ensures SkillsSection(s).rows[0].cells[0] == "Japanese Level:"
    ensures s.jlptLevel.None? ==> SkillsSection(s).rows[0].cells[1] == "None"
    ensures s.jlptLevel.Some? ==> SkillsSection(s).rows[0].cells[1] == JlptLabel(s.jlptLevel.value)
    ensures |SkillsSection(s).rows| ==
      1 + (if s.sswCertificates.Some? && |s.sswCertificates.value| > 0 then 1 else 0)
        + (if s.technicalSkills.Some? && |s.technicalSkills.value| > 0 then 1 else 0)
    ensures s.sswCertificates.Some? && |s.sswCertificates.value| > 0 ==>
      SkillsSection(s).rows[1].cells == ["SSW Certificates:", Join(s.sswCertificates.value, ", ")]
    ensures s.technicalSkills.Some? && |s.technicalSkills.value| > 0 ==>
      SkillsSection(s).rows[|SkillsSection(s).rows| - 1].cells
        == ["Technical Skills:", Join(s.technicalSkills.value, ", ")]
  {
  }
}
