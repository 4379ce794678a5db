/**
 * lib/store/resumeStore.ts: the editing store. One object holds the record
 * being edited (`data`), the wizard step, a loading flag and the field
 * errors; every action replaces some of them. Partial updates are shallow
 * merges: a key the partial supplies overwrites, a key it omits is kept.
 * List entries have no identity other than their index.
 */
module ResumeStore {
  import opened ResumeTypes
  import opened ResumeSchema

  // ---- Partial values (TypeScript `Partial<...>`) ----
  // `None` is a key the partial leaves out. For an optional property,
  // `Some(None)` is the key supplied with the value `undefined`.

  datatype PersonalInfoPatch = PersonalInfoPatch(
    fullName: Option<string>,
    katakanaName: Option<string>,
    gender: Option<Gender>,
    birthDate: Option<string>,
    currentAddress: Option<string>,
    japanAddress: Option<Option<string>>,
    email: Option<string>,
    phone: Option<string>,
    photoUrl: Option<Option<string>>,
    familyDetails: Option<Option<seq<FamilyDetail>>>,
    physicalStats: Option<Option<PhysicalStats>>)

  datatype EducationPatch = EducationPatch(
    schoolName: Option<string>, startDate: Option<string>, endDate: Option<string>, status: Option<EducationStatus>)

  datatype WorkPatch = WorkPatch(
    companyName: Option<string>, startDate: Option<string>, endDate: Option<string>,
    role: Option<string>, description: Option<Option<string>>)

  datatype SkillsPatch = SkillsPatch(
    jlptLevel: Option<Option<JlptLevel>>, sswCertificates: Option<Option<seq<string>>>,
    technicalSkills: Option<Option<seq<string>>>)

  datatype MotivationPatch = MotivationPatch(reasonForApplying: Option<string>, selfPR: Option<string>)

  /** `Partial<RirekishoData>` for setData: whole top-level sections. */
  datatype DataPatch = DataPatch(
    tier: Option<VisaTier>, personalInfo: Option<PersonalInfo>, education: Option<seq<EducationEntry>>,
    workHistory: Option<seq<WorkEntry>>, skills: Option<Skills>, motivation: Option<Motivation>)

  const EmptyPersonalInfoPatch := PersonalInfoPatch(None, None, None, None, None, None, None, None, None, None, None)
  const EmptyEducationPatch := EducationPatch(None, None, None, None)
  const EmptyWorkPatch := WorkPatch(None, None, None, None, None)
  const EmptySkillsPatch := SkillsPatch(None, None, None)
  const EmptyMotivationPatch := MotivationPatch(None, None)

  /** One key of a spread `{ ...old, ...patch }`. */
  function Over<T>(prev: T, patch: Option<T>): T {
    patch.GetOr(prev)
  }

  /** The later of two partials wins key by key, as in `{ ...p, ...q }`. */
  function Later<T>(p: Option<T>, q: Option<T>): Option<T> {
    if q.Some? then q else p
  }

  function MergePersonalInfo(p: PersonalInfo, q: PersonalInfoPatch): PersonalInfo {
    PersonalInfo(
      Over(p.fullName, q.fullName), Over(p.katakanaName, q.katakanaName), Over(p.gender, q.gender),
      Over(p.birthDate, q.birthDate), Over(p.currentAddress, q.currentAddress),
      Over(p.japanAddress, q.japanAddress), Over(p.email, q.email), Over(p.phone, q.phone),
      Over(p.photoUrl, q.photoUrl), Over(p.familyDetails, q.familyDetails), Over(p.physicalStats, q.physicalStats))
  }

  function LaterPersonalInfo(a: PersonalInfoPatch, b: PersonalInfoPatch): PersonalInfoPatch {
    PersonalInfoPatch(
      Later(a.fullName, b.fullName), Later(a.katakanaName, b.katakanaName), Later(a.gender, b.gender),
      Later(a.birthDate, b.birthDate), Later(a.currentAddress, b.currentAddress),
      Later(a.japanAddress, b.japanAddress), Later(a.email, b.email), Later(a.phone, b.phone),
      Later(a.photoUrl, b.photoUrl), Later(a.familyDetails, b.familyDetails), Later(a.physicalStats, b.physicalStats))
  }

  function MergeEducation(e: EducationEntry, q: EducationPatch): EducationEntry {
    EducationEntry(Over(e.schoolName, q.schoolName), Over(e.startDate, q.startDate),
                   Over(e.endDate, q.endDate), Over(e.status, q.status))
  }

  function MergeWork(w: WorkEntry, q: WorkPatch): WorkEntry {
    WorkEntry(Over(w.companyName, q.companyName), Over(w.startDate, q.startDate), Over(w.endDate, q.endDate),
              Over(w.role, q.role), Over(w.description, q.description))
  }

  function MergeSkills(s: Skills, q: SkillsPatch): Skills {
    Skills(Over(s.jlptLevel, q.jlptLevel), Over(s.sswCertificates, q.sswCertificates),
           Over(s.technicalSkills, q.technicalSkills))
  }

  function MergeMotivation(m: Motivation, q: MotivationPatch): Motivation {
    Motivation(Over(m.reasonForApplying, q.reasonForApplying), Over(m.selfPR, q.selfPR))
  }

  function ApplyDataPatch(d: ResumeData, q: DataPatch): ResumeData {
    ResumeData(Over(d.tier, q.tier), Over(d.personalInfo, q.personalInfo), Over(d.education, q.education),
               Over(d.workHistory, q.workHistory), Over(d.skills, q.skills), Over(d.motivation, q.motivation))
  }

  /** `list.filter((_, i) => i !== index)`: every entry whose position differs from `index`. */
  function WithoutIndex<T>(xs: seq<T>, index: int): seq<T>
    decreases |xs|
  {
    if xs == [] then []
    else (if index == 0 then [] else [xs[0]]) + WithoutIndex(xs[1..], index - 1)
  }

  /** The record the store starts from and `reset` restores. */
  function InitialState(): ResumeData {
    ResumeData(
      ENGINEER,
      PersonalInfo("", "", Male, "", "", Some(""), "", "", Some(""), None, None),
      [], [],
      Skills(None, None, None),
      Motivation("", ""))
  }

  // ---- Properties of the operations ----

  /** Removing an index in range drops exactly that entry and shifts the later ones down by one. */
  lemma {:induction false} WithoutIndexInRange<T>(xs: seq<T>, index: int)
    requires 0 <= index < |xs|
    ensures WithoutIndex(xs, index) == xs[..index] + xs[index + 1..]
    decreases |xs|
  {
    if index > 0 {
      WithoutIndexInRange(xs[1..], index - 1);
      assert xs[..index] == [xs[0]] + xs[1..][..index - 1];
      assert xs[index + 1..] == xs[1..][index..];
    } else {
      WithoutIndexOutOfRange(xs[1..], -1);
    }
  }

  /** An index outside the list removes nothing. */
  lemma {:induction false} WithoutIndexOutOfRange<T>(xs: seq<T>, index: int)
    requires index < 0 || index >= |xs|
    ensures WithoutIndex(xs, index) == xs
    decreases |xs|
  {
    if xs != [] {
      WithoutIndexOutOfRange(xs[1..], index - 1);
      assert xs == [xs[0]] + xs[1..];
    }
  }

  /** The length after a removal: one less when the index is in range, the same otherwise. */
  lemma RemovalLength<T>(xs: seq<T>, index: int)
    ensures |WithoutIndex(xs, index)| == if 0 <= index < |xs| then |xs| - 1 else |xs|
  {
    if 0 <= index < |xs| { WithoutIndexInRange(xs, index); } else { WithoutIndexOutOfRange(xs, index); }
  }

  /**
   * Removing entry `i` and appending it again moves it: it ends up last, and
   * the entries after position `i` move up by one.
   */
  lemma RemoveThenAppendMovesEntry<T>(xs: seq<T>, i: int)
    requires 0 <= i < |xs|
    ensures var r := WithoutIndex(xs, i) + [xs[i]];
      && |r| == |xs| && r[|xs| - 1] == xs[i]
      && (forall k :: 0 <= k < i ==> r[k] == xs[k])
      && (forall k :: i <= k < |xs| - 1 ==> r[k] == xs[k + 1])
  {
    WithoutIndexInRange(xs, i);
  }

  /** Updating the just-appended entry with an empty partial leaves it as appended. */
  lemma AppendThenEmptyUpdate(xs: seq<EducationEntry>, e: EducationEntry, ws: seq<WorkEntry>, w: WorkEntry)
    ensures var ys := xs + [e]; ys[|xs| := MergeEducation(ys[|xs|], EmptyEducationPatch)] == ys
    ensures var vs := ws + [w]; vs[|ws| := MergeWork(vs[|ws|], EmptyWorkPatch)] == vs
  {
  }

  /** An empty partial changes nothing; a partial applied twice acts once. */
  lemma MergeIdentityAndIdempotence(p: PersonalInfo, q: PersonalInfoPatch, s: Skills, sq: SkillsPatch,
                                    m: Motivation, mq: MotivationPatch)
    ensures MergePersonalInfo(p, EmptyPersonalInfoPatch) == p
    ensures MergeSkills(s, EmptySkillsPatch) == s
    ensures MergeMotivation(m, EmptyMotivationPatch) == m
    ensures MergePersonalInfo(MergePersonalInfo(p, q), q) == MergePersonalInfo(p, q)
    ensures MergeSkills(MergeSkills(s, sq), sq) == MergeSkills(s, sq)
    ensures MergeMotivation(MergeMotivation(m, mq), mq) == MergeMotivation(m, mq)
  {
  }

  /** Two successive updates act as one update whose partial is the later one spread over the earlier. */
  lemma MergeComposes(p: PersonalInfo, a: PersonalInfoPatch, b: PersonalInfoPatch)
    ensures MergePersonalInfo(MergePersonalInfo(p, a), b) == MergePersonalInfo(p, LaterPersonalInfo(a, b))
  {
  }

  /** The record the store starts from is not a valid résumé: its names are empty. */
  lemma InitialStateInvalid()
    ensures !ValidResume(InitialState())
    ensures InitialState().education == [] && InitialState().workHistory == []
  {
    assert !MinLength(InitialState().personalInfo.fullName, 1);
  }

  class Store {
    var data: ResumeData
    var currentStep: int
    var isLoading: bool
    var errors: map<string, seq<string>>

    /** The wizard step, the loading flag and the errors are as before. */
    twostate predicate UiUnchanged()
      reads this
    {
      currentStep == old(currentStep) && isLoading == old(isLoading) && errors == old(errors)
    }

    constructor ()
      ensures data == InitialState() && currentStep == 0 && !isLoading && errors == map[]
    {
      data := InitialState();
      currentStep := 0;
      isLoading := false;
      errors := map[];
    }

    /** Replaces the supplied top-level sections wholesale and keeps the rest. */
    method SetData(patch: DataPatch)
      modifies this
      ensures data == ApplyDataPatch(old(data), patch)
      ensures UiUnchanged()
    {
      data := ApplyDataPatch(data, patch);
    }

    method UpdatePersonalInfo(info: PersonalInfoPatch)
      modifies this
      ensures data == old(data).(personalInfo := MergePersonalInfo(old(data.personalInfo), info))
      ensures UiUnchanged()
    {
      data := data.(personalInfo := MergePersonalInfo(data.personalInfo, info));
    }

    method AddEducation(edu: EducationEntry)
      modifies this
      ensures data == old(data).(education := old(data.education) + [edu])
      ensures UiUnchanged()
    {
      data := data.(education := data.education + [edu]);
    }

    /** Copies the list and merges `edu` over the one slot at `index`. */
    method UpdateEducation(index: int, edu: EducationPatch)
      requires 0 <= index < |data.education|
      modifies this
      ensures |data.education| == |old(data.education)|
      ensures data.education[index] == MergeEducation(old(data.education[index]), edu)
      ensures forall k :: 0 <= k < |data.education| && k != index ==> data.education[k] == old(data.education[k])
      ensures data == old(data).(education := data.education)
      ensures UiUnchanged()
    {
      var education := data.education;
      education := education[index := MergeEducation(education[index], edu)];
      data := data.(education := education);
    }

    method RemoveEducation(index: int)
      modifies this
      ensures data == old(data).(education := WithoutIndex(old(data.education), index))
      ensures 0 <= index < |old(data.education)| ==>
        data.education == old(data.education)[..index] + old(data.education)[index + 1..]
      ensures !(0 <= index < |old(data.education)|) ==> data.education == old(data.education)
      ensures UiUnchanged()
    {
      if 0 <= index < |data.education| {
        WithoutIndexInRange(data.education, index);
      } else {
        WithoutIndexOutOfRange(data.education, index);
      }
      data := data.(education := WithoutIndex(data.education, index));
    }

    method AddWorkHistory(work: WorkEntry)
      modifies this
      ensures data == old(data).(workHistory := old(data.workHistory) + [work])
      ensures UiUnchanged()
    {
      data := data.(workHistory := data.workHistory + [work]);
    }

    /** Copies the list and merges `work` over the one slot at `index`. */
    method UpdateWorkHistory(index: int, work: WorkPatch)
      requires 0 <= index < |data.workHistory|
      modifies this
      ensures |data.workHistory| == |old(data.workHistory)|
      ensures data.workHistory[index] == MergeWork(old(data.workHistory[index]), work)
      ensures forall k :: 0 <= k < |data.workHistory| && k != index ==> data.workHistory[k] == old(data.workHistory[k])
      ensures data == old(data).(workHistory := data.workHistory)
      ensures UiUnchanged()
    {
      var workHistory := data.workHistory;
      workHistory := workHistory[index := MergeWork(workHistory[index], work)];
      data := data.(workHistory := workHistory);
    }

    method RemoveWorkHistory(index: int)
      modifies this
      ensures data == old(data).(workHistory := WithoutIndex(old(data.workHistory), index))
      ensures 0 <= index < |old(data.workHistory)| ==>
        data.workHistory == old(data.workHistory)[..index] + old(data.workHistory)[index + 1..]
      ensures !(0 <= index < |old(data.workHistory)|) ==> data.workHistory == old(data.workHistory)
      ensures UiUnchanged()
    {
      if 0 <= index < |data.workHistory| {
        WithoutIndexInRange(data.workHistory, index);
      } else {
        WithoutIndexOutOfRange(data.workHistory, index);
      }
      data := data.(workHistory := WithoutIndex(data.workHistory, index));
    }

    method UpdateSkills(skills: SkillsPatch)
      modifies this
      ensures data == old(data).(skills := MergeSkills(old(data.skills), skills))
      ensures UiUnchanged()
    {
      data := data.(skills := MergeSkills(data.skills, skills));
    }

    method UpdateMotivation(motivation: MotivationPatch)
      modifies this
      ensures data == old(data).(motivation := MergeMotivation(old(data.motivation), motivation))
      ensures UiUnchanged()
    {
      data := data.(motivation := MergeMotivation(data.motivation, motivation));
    }

    /** Changes the tier only; family details and physical stats stay as they were. */
    method SetTier(tier: VisaTier)
      modifies this
      ensures data == old(data).(tier := tier)
      ensures data.personalInfo == old(data.personalInfo)
      ensures UiUnchanged()
    {
      data := data.(tier := tier);
    }

    method SetCurrentStep(step: int)
      modifies this
      ensures currentStep == step
      ensures data == old(data) && isLoading == old(isLoading) && errors == old(errors)
    {
      currentStep := step;
    }

    method SetErrors(errs: map<string, seq<string>>)
      modifies this
      ensures errors == errs
      ensures data == old(data) && currentStep == old(currentStep) && isLoading == old(isLoading)
    {
      errors := errs;
    }

    method ClearErrors()
      modifies this
      ensures errors == map[]
      ensures data == old(data) && currentStep == old(currentStep) && isLoading == old(isLoading)
    {
      errors := map[];
    }

    /** Restores the initial record, step 0 and no errors; the loading flag is left alone. */
    method Reset()
      modifies this
      ensures data == InitialState() && currentStep == 0 && errors == map[]
      ensures isLoading == old(isLoading)
    {
      data := InitialState();
      currentStep := 0;
      errors := map[];
    }
  }

  /** The scenarios of tests/lib/store/resumeStore.test.ts, checked against the contracts. */
  method StoreScenarios()
  {
    var store := new Store();
    store.Reset();
    store.UpdatePersonalInfo(EmptyPersonalInfoPatch.(fullName := Some("John Doe"), email := Some("john@example.com")));
    assert store.data.personalInfo.fullName == "John Doe";
    assert store.data.personalInfo.email == "john@example.com";

    store.Reset();
    var tokyo := EducationEntry("Tokyo University", "2018-04-01", "2022-03-31", Graduated);
    store.AddEducation(tokyo);
    assert |store.data.education| == 1 && store.data.education[0].schoolName == "Tokyo University";
    store.RemoveEducation(0);
    assert |store.data.education| == 0;
  }
}
