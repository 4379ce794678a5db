/**
 * components/features/GapHunter/CVUpload.tsx, the upload handler: it sends
 * the chosen file to the CV parser and merges what comes back into the
 * record through the store's actions, one entry at a time. The parser call
 * becomes a parameter (`UploadResponse`); the three-second timer that
 * returns the status to idle is not part of this model.
 */
module CvUpload {
  import opened ResumeTypes
  import opened ResumeStore

  /**
   * The parser's answer after JSON decoding. The parse route's schema makes
   * the four top-level keys required and the three lists arrays. Inside an
   * entry the start and end dates may be absent; they are represented here
   * as "", which prints as nothing on both forms, fails the date pattern as
   * an absent date does, and is not the "Current" sentinel. Absent personal
   * fields are `None` in the patch, and an absent job description is `None`.
   */
  datatype ParsedCv = ParsedCv(
    personalInfo: Option<PersonalInfoPatch>,
    education: seq<EducationEntry>,
    workHistory: seq<WorkEntry>,
    skills: seq<string>)

  /** `Failed` covers a non-ok status, a network error and a body that is not JSON. */
  datatype UploadResponse = Failed | Parsed(cv: ParsedCv)

  datatype UploadStatus = Idle | Success | Error

  /** The record after a successful import. */
  function MergeParsedCv(d: ResumeData, cv: ParsedCv): ResumeData {
    var info := if cv.personalInfo.Some? then MergePersonalInfo(d.personalInfo, cv.personalInfo.value)
                else d.personalInfo;
    var skills := if |cv.skills| > 0 then MergeSkills(d.skills, SkillsPatch(None, None, Some(Some(cv.skills))))
                  else d.skills;
    d.(personalInfo := info, education := d.education + cv.education,
       workHistory := d.workHistory + cv.workHistory, skills := skills)
  }

  /**
   * What an import does to the record: tier and motivation are untouched;
   * parsed entries are appended in order after the existing ones, which stay
   * as they were; a non-empty skills list replaces the technical skills
   * wholesale while the JLPT level and SSW certificates stay; an empty one
   * leaves the skills alone.
   */
  lemma ImportEffect(d: ResumeData, cv: ParsedCv)
    ensures var r := MergeParsedCv(d, cv);
      && r.tier == d.tier && r.motivation == d.motivation
      && |r.education| == |d.education| + |cv.education|
      && r.education[..|d.education|] == d.education
      && (forall k :: 0 <= k < |cv.education| ==> r.education[|d.education| + k] == cv.education[k])
      && |r.workHistory| == |d.workHistory| + |cv.workHistory|
      && r.workHistory[..|d.workHistory|] == d.workHistory
      && (forall k :: 0 <= k < |cv.workHistory| ==> r.workHistory[|d.workHistory| + k] == cv.workHistory[k])
      && r.skills.jlptLevel == d.skills.jlptLevel && r.skills.sswCertificates == d.skills.sswCertificates
      && r.skills.technicalSkills == (if |cv.skills| > 0 then Some(cv.skills) else d.skills.technicalSkills)
      && (cv.personalInfo.None? ==> r.personalInfo == d.personalInfo)
  {
  }

  /** An import with nothing in it leaves the record as it was. */
  lemma EmptyImportIsIdentity(d: ResumeData)
    ensures MergeParsedCv(d, ParsedCv(None, [], [], [])) == d
  {
    assert d.education + [] == d.education;
    assert d.workHistory + [] == d.workHistory;
  }

  /**
   * Imports do not de-duplicate: uploading the same CV twice appends its
   * entries twice, while personal info and skills end as after one upload.
   */
  lemma ImportTwiceDuplicates(d: ResumeData, cv: ParsedCv)
    ensures var once := MergeParsedCv(d, cv);
      var twice := MergeParsedCv(once, cv);
      && twice.education == d.education + cv.education + cv.education
      && twice.workHistory == d.workHistory + cv.workHistory + cv.workHistory
      && twice.personalInfo == once.personalInfo
      && twice.skills == once.skills
  {
    var once := MergeParsedCv(d, cv);
    if cv.personalInfo.Some? {
      MergeIdentityAndIdempotence(d.personalInfo, cv.personalInfo.value, d.skills,
        SkillsPatch(None, None, Some(Some(cv.skills))), d.motivation, EmptyMotivationPatch);
    }
    if |cv.skills| > 0 {
      MergeIdentityAndIdempotence(d.personalInfo, EmptyPersonalInfoPatch, d.skills,
        SkillsPatch(None, None, Some(Some(cv.skills))), d.motivation, EmptyMotivationPatch);
    }
  }

  class CvUploader {
    var isUploading: bool
    var progress: int
    var uploadStatus: UploadStatus

    constructor ()
      ensures !isUploading && progress == 0 && uploadStatus == Idle
    {
      isUploading := false;
      progress := 0;
      uploadStatus := Idle;
    }

    /**
     * The change handler of the file input. With no file it returns at
     * once. Otherwise a failed response leaves the record alone and reports
     * an error; a parsed one is merged action by action and reports success
     * at 100%. The uploading flag is clear whenever the handler finishes, and
     * the store's step, loading flag and errors are never touched.
     */
    method HandleFileUpload(fileSelected: bool, response: UploadResponse, store: Store)
      modifies this, store
      ensures store.currentStep == old(store.currentStep) && store.isLoading == old(store.isLoading)
      ensures store.errors == old(store.errors)
      ensures !fileSelected ==>
        store.data == old(store.data) && isUploading == old(isUploading)
        && progress == old(progress) && uploadStatus == old(uploadStatus)
      ensures fileSelected ==> !isUploading
      ensures fileSelected && response.Failed? ==>
        store.data == old(store.data) && uploadStatus == Error && progress == 0
      ensures fileSelected && response.Parsed? ==>
        store.data == MergeParsedCv(old(store.data), response.cv) && uploadStatus == Success && progress == 100
    {
      if !fileSelected {
        return;
      }
      isUploading := true;
      progress := 0;

      if response.Failed? {
        uploadStatus := Error;
      } else {
        var cv := response.cv;
        if cv.personalInfo.Some? {
          store.UpdatePersonalInfo(cv.personalInfo.value);
        }
        ghost var before := store.data;

        var i := 0;
        while i < |cv.education|
          invariant 0 <= i <= |cv.education|
          invariant store.data == before.(education := before.education + cv.education[..i])
          invariant store.currentStep == old(store.currentStep) && store.isLoading == old(store.isLoading)
          invariant store.errors == old(store.errors)
        {
          store.AddEducation(cv.education[i]);
          assert cv.education[..i + 1] == cv.education[..i] + [cv.education[i]];
          i := i + 1;
        }
        assert cv.education[..i] == cv.education;
        before := store.data;

        var j := 0;
        while j < |cv.workHistory|
          invariant 0 <= j <= |cv.workHistory|
          invariant store.data == before.(workHistory := before.workHistory + cv.workHistory[..j])
          invariant store.currentStep == old(store.currentStep) && store.isLoading == old(store.isLoading)
          invariant store.errors == old(store.errors)
        {
          store.AddWorkHistory(cv.workHistory[j]);
          assert cv.workHistory[..j + 1] == cv.workHistory[..j] + [cv.workHistory[j]];
          j := j + 1;
        }
        assert cv.workHistory[..j] == cv.workHistory;

        if |cv.skills| > 0 {
          store.UpdateSkills(SkillsPatch(None, None, Some(Some(cv.skills))));
        }
        uploadStatus := Success;
        progress := 100;
      }
      isUploading := false;
    }
  }
}
