/**
 * The résumé record (types/resume.ts): one application's data for one of
 * three visa tiers. Optional properties of the TypeScript interfaces are
 * `Option` fields; every enumerated string union is a datatype, so a value
 * outside the union cannot be built.
 */
module ResumeTypes {

  datatype Option<+T> = None | Some(value: T) {
    function GetOr(default: T): T {
      match this
      case Some(v) => v
      case None => default
    }
  }

  /** The three visa tiers; the tier picks the paper form and the wizard steps. */
  datatype VisaTier = TITP | SSW | ENGINEER

  datatype Gender = Male | Female

  datatype Hand = Right | Left

  datatype EducationStatus = Graduated | Dropout

  /** JLPT levels; `NoLevel` is the string "None", distinct from the field being absent. */
  datatype JlptLevel = N1 | N2 | N3 | N4 | N5 | NoLevel

  /** The sentinel a work entry's end date holds while the job is ongoing. */
  const CURRENT: string := "Current"

  datatype FamilyDetail = FamilyDetail(name: string, relationship: string, age: nat, occupation: string)

  datatype PhysicalStats = PhysicalStats(heightCm: nat, weightKg: nat, bloodType: Option<string>, handz: Hand)

  datatype PersonalInfo = PersonalInfo(
    fullName: string,
    katakanaName: string,
    gender: Gender,
    birthDate: string,
    currentAddress: string,
    japanAddress: Option<string>,
    email: string,
    phone: string,
    photoUrl: Option<string>,
    familyDetails: Option<seq<FamilyDetail>>,
    physicalStats: Option<PhysicalStats>)

  datatype EducationEntry = EducationEntry(schoolName: string, startDate: string, endDate: string, status: EducationStatus)

  /** `endDate` is a plain string in which `CURRENT` is a distinguished value. */
  datatype WorkEntry = WorkEntry(companyName: string, startDate: string, endDate: string, role: string, description: Option<string>)

  datatype Skills = Skills(jlptLevel: Option<JlptLevel>, sswCertificates: Option<seq<string>>, technicalSkills: Option<seq<string>>)

  datatype Motivation = Motivation(reasonForApplying: string, selfPR: string)

  /** The aggregate record; `education` and `workHistory` are always present, possibly empty. */
  datatype ResumeData = ResumeData(
    tier: VisaTier,
    personalInfo: PersonalInfo,
    education: seq<EducationEntry>,
    workHistory: seq<WorkEntry>,
    skills: Skills,
    motivation: Motivation)

  function GenderLabel(g: Gender): string {
    match g
    case Male => "Male"
    case Female => "Female"
  }

  function HandLabel(h: Hand): string {
    match h
    case Right => "Right"
    case Left => "Left"
  }

  function StatusLabel(s: EducationStatus): string {
    match s
    case Graduated => "Graduated"
    case Dropout => "Dropout"
  }

  function JlptLabel(l: JlptLevel): string {
    match l
    case N1 => "N1"
    case N2 => "N2"
    case N3 => "N3"
    case N4 => "N4"
    case N5 => "N5"
    case NoLevel => "None"
  }

  /** The string form of each enumerated field is one-to-one, so no two values print alike. */
  lemma LabelsInjective(a: JlptLevel, b: JlptLevel, g: Gender, h: Gender, s: EducationStatus, t: EducationStatus)
    ensures JlptLabel(a) == JlptLabel(b) ==> a == b
    ensures GenderLabel(g) == GenderLabel(h) ==> g == h
    ensures StatusLabel(s) == StatusLabel(t) ==> s == t
  {
    if JlptLabel(a) == JlptLabel(b) {
      assert JlptLabel(a)[|JlptLabel(a)| - 1] == JlptLabel(b)[|JlptLabel(b)| - 1];
    }
    if GenderLabel(g) == GenderLabel(h) {
      assert GenderLabel(g)[0] == GenderLabel(h)[0];
    }
    if StatusLabel(s) == StatusLabel(t) {
      assert StatusLabel(s)[0] == StatusLabel(t)[0];
    }
  }
}
