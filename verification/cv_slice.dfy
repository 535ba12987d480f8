/** The wizard's single store: the state record, its initial value and its
    reducers. Each reducer assigns fields of the state in place, so the
    store is a class whose methods change its fields; `State()` reads the
    fields back as a `CvState` value, against which every reducer states the
    whole new state. */
module CvSlice {
  import opened Wrappers
  import opened Document

  /** Step 1, section "education", blank personal info, empty lists and
      strings, `contactInfo` `{}`, not AI-enhanced. */
  const InitialState: CvState := CvState(
    1, "education", BlankPersonalInfo, [], [], [], [], EmptyContactInfo,
    "", "", NotGenerated, false)

  /** The initial state already has every personal key, blank. */
  lemma InitialStateWellFormed()
    ensures WellFormed(InitialState)
  {
  }

  /** JavaScript truthiness of an optional string: present and not "". */
  predicate TruthyText(s: Option<string>) {
    s.Some? && s.value != ""
  }

  /** What `setGeneratedResume` makes of state `s` with payload `p`: a text
      field is overwritten only by a non-empty string, a list by any list
      that is present (an empty array is truthy), `personalInfo` is
      shallow-merged when present, and the payload is recorded. */
  function Merge(s: CvState, p: EnhancedData): (r: CvState)
    ensures r.currentStep == s.currentStep && r.currentSection == s.currentSection
    ensures r.contactInfo == s.contactInfo
    ensures r.isAIEnhanced && r.generatedResume == Serialized(p)
    ensures WellFormed(s) ==> WellFormed(r)
  {
    s.(personalInfo := if p.personalInfo.Some? then s.personalInfo + p.personalInfo.value else s.personalInfo,
       jobTitle := if TruthyText(p.jobTitle) then p.jobTitle.value else s.jobTitle,
       careerSummary := if TruthyText(p.careerSummary) then p.careerSummary.value else s.careerSummary,
       skills := if p.skills.Some? then p.skills.value else s.skills,
       workExperience := if p.workExperience.Some? then p.workExperience.value else s.workExperience,
       education := if p.education.Some? then p.education.value else s.education,
       certifications := if p.certifications.Some? then p.certifications.value else s.certifications,
       generatedResume := Serialized(p),
       isAIEnhanced := true)
  }

  /** The personal-info part of the merge is shallow: a key of the payload
      takes the payload's value, every other key keeps its old value, and no
      key is lost. */
  lemma MergePersonalInfo(s: CvState, p: EnhancedData)
    requires p.personalInfo.Some?
    ensures Merge(s, p).personalInfo.Keys == s.personalInfo.Keys + p.personalInfo.value.Keys
    ensures forall k :: k in p.personalInfo.value ==> Merge(s, p).personalInfo[k] == p.personalInfo.value[k]
    ensures forall k :: k in s.personalInfo && k !in p.personalInfo.value ==>
      Merge(s, p).personalInfo[k] == s.personalInfo[k]
  {
  }

  /** Truthiness decides: a non-empty text replaces the old value and an
      empty or missing one leaves it; a present list replaces the old one
      even when it is empty, and a missing one leaves it. */
  lemma MergeTruthiness(s: CvState, p: EnhancedData)
    ensures TruthyText(p.jobTitle) ==> Merge(s, p).jobTitle == p.jobTitle.value
    ensures TruthyText(p.careerSummary) ==> Merge(s, p).careerSummary == p.careerSummary.value
    ensures p.skills.Some? ==> Merge(s, p).skills == p.skills.value
    ensures p.workExperience.Some? ==> Merge(s, p).workExperience == p.workExperience.value
    ensures p.education.Some? ==> Merge(s, p).education == p.education.value
    ensures p.certifications.Some? ==> Merge(s, p).certifications == p.certifications.value
    ensures p.personalInfo.Some? ==> Merge(s, p).personalInfo == s.personalInfo + p.personalInfo.value
    ensures p.jobTitle in {None, Some("")} ==> Merge(s, p).jobTitle == s.jobTitle
    ensures p.careerSummary in {None, Some("")} ==> Merge(s, p).careerSummary == s.careerSummary
    ensures p.skills == Some([]) ==> Merge(s, p).skills == []
    ensures p.workExperience == Some([]) ==> Merge(s, p).workExperience == []
    ensures p.education == Some([]) ==> Merge(s, p).education == []
    ensures p.certifications == Some([]) ==> Merge(s, p).certifications == []
    ensures p.personalInfo.None? ==> Merge(s, p).personalInfo == s.personalInfo
    ensures p.skills.None? ==> Merge(s, p).skills == s.skills
    ensures p.workExperience.None? ==> Merge(s, p).workExperience == s.workExperience
    ensures p.education.None? ==> Merge(s, p).education == s.education
    ensures p.certifications.None? ==> Merge(s, p).certifications == s.certifications
  {
  }

  /** Merging the same payload twice is merging it once. */
  lemma MergeIdempotent(s: CvState, p: EnhancedData)
    ensures Merge(Merge(s, p), p) == Merge(s, p)
  {
    if p.personalInfo.Some? {
      var m, q := s.personalInfo, p.personalInfo.value;
      assert (m + q) + q == m + q;
    }
  }

  /** The payload the generation route sends back when the service's answer
      cannot be parsed: the request snapshot itself. */
  function SnapshotPayload(s: CvState): EnhancedData {
    EnhancedData(Some(s.personalInfo), Some(s.jobTitle), Some(s.careerSummary), Some(s.skills),
                 Some(s.workExperience), Some(s.education), Some(s.certifications))
  }

  /** Merging a state's own snapshot back into it changes only the two
      bookkeeping fields: the document itself is unchanged. */
  lemma MergeOfSnapshot(s: CvState)
    ensures Merge(s, SnapshotPayload(s)) ==
      s.(generatedResume := Serialized(SnapshotPayload(s)), isAIEnhanced := true)
  {
    assert s.personalInfo + s.personalInfo == s.personalInfo;
  }

  class CvStore {
    var currentStep: int
    var currentSection: string
    var personalInfo: PersonalInfo
    var education: seq<EducationItem>
    var workExperience: seq<WorkItem>
    var skills: seq<string>
    var certifications: seq<CertificationItem>
    var contactInfo: ContactInfo
    var careerSummary: string
    var jobTitle: string
    var generatedResume: GeneratedResume
    var isAIEnhanced: bool

    /** The store's fields as one state value. */
    function State(): CvState
      reads this
    {
      CvState(currentStep, currentSection, personalInfo, education, workExperience, skills,
              certifications, contactInfo, careerSummary, jobTitle, generatedResume, isAIEnhanced)
    }

    ghost predicate Valid()
      reads this
    {
      WellFormed(State())
    }

    /** The store as created: `initialState`. */
    constructor ()
      ensures Valid() && State() == InitialState
    {
      var s := InitialState;
      currentStep, currentSection, personalInfo := s.currentStep, s.currentSection, s.personalInfo;
      education, workExperience, skills := s.education, s.workExperience, s.skills;
      certifications, contactInfo := s.certifications, s.contactInfo;
      careerSummary, jobTitle := s.careerSummary, s.jobTitle;
      generatedResume, isAIEnhanced := s.generatedResume, s.isAIEnhanced;
      InitialStateWellFormed();
    }

    /** `setCurrentStep`: stores any number, with no range check. */
    method SetCurrentStep(step: int)
      requires Valid()
      modifies this
      ensures Valid() && State() == old(State()).(currentStep := step)
    {
      currentStep := step;
    }

    /** `setCurrentSection`. */
    method SetCurrentSection(section: string)
      requires Valid()
      modifies this
      ensures Valid() && State() == old(State()).(currentSection := section)
    {
      currentSection := section;
    }

    /** `updatePersonalInfo`: `{ ...personalInfo, ...payload }`. */
    method UpdatePersonalInfo(payload: PersonalInfo)
      requires Valid()
      modifies this
      ensures Valid() && State() == old(State()).(personalInfo := old(personalInfo) + payload)
    {
      personalInfo := personalInfo + payload;
    }

    /** `updateEducation`. */
    method UpdateEducation(items: seq<EducationItem>)
      requires Valid()
      modifies this
      ensures Valid() && State() == old(State()).(education := items)
    {
      education := items;
    }

    /** `updateWorkExperience`. */
    method UpdateWorkExperience(items: seq<WorkItem>)
      requires Valid()
      modifies this
      ensures Valid() && State() == old(State()).(workExperience := items)
    {
      workExperience := items;
    }

    /** `updateSkills`. */
    method UpdateSkills(items: seq<string>)
      requires Valid()
      modifies this
      ensures Valid() && State() == old(State()).(skills := items)
    {
      skills := items;
    }

    /** `updateCertifications`. */
    method UpdateCertifications(items: seq<CertificationItem>)
      requires Valid()
      modifies this
      ensures Valid() && State() == old(State()).(certifications := items)
    {
      certifications := items;
    }

    /** `updateContactInfo`: replaces the whole bag. */
    method UpdateContactInfo(info: ContactInfo)
      requires Valid()
      modifies this
      ensures Valid() && State() == old(State()).(contactInfo := info)
    {
      contactInfo := info;
    }

    /** `updateCareerSummary`. */
    method UpdateCareerSummary(summary: string)
      requires Valid()
      modifies this
      ensures Valid() && State() == old(State()).(careerSummary := summary)
    {
      careerSummary := summary;
    }

    /** `updateJobTitle`. */
    method UpdateJobTitle(title: string)
      requires Valid()
      modifies this
      ensures Valid() && State() == old(State()).(jobTitle := title)
    {
      jobTitle := title;
    }

    /** `setGeneratedResume`: the run of truthiness-guarded assignments. */
    method SetGeneratedResume(p: EnhancedData)
      requires Valid()
      modifies this
      ensures Valid() && State() == Merge(old(State()), p)
    {
      MergeProfile(p);
      MergeSections(p);
      generatedResume := Serialized(p);
      isAIEnhanced := true;
    }

    /** The first half of `setGeneratedResume`: personal info, job title and
        career summary. */
    method MergeProfile(p: EnhancedData)
      requires Valid()
      modifies this
      ensures Valid()
      ensures State() == old(State()).(personalInfo := Merge(old(State()), p).personalInfo,
        jobTitle := Merge(old(State()), p).jobTitle, careerSummary := Merge(old(State()), p).careerSummary)
    {
      if p.personalInfo.Some? {
        personalInfo := personalInfo + p.personalInfo.value;
      }
      if TruthyText(p.jobTitle) {
        jobTitle := p.jobTitle.value;
      }
      if TruthyText(p.careerSummary) {
        careerSummary := p.careerSummary.value;
      }
    }

    /** The second half of `setGeneratedResume`: the four lists. */
    method MergeSections(p: EnhancedData)
      requires Valid()
      modifies this
      ensures Valid()
      ensures State() == old(State()).(skills := Merge(old(State()), p).skills,
        workExperience := Merge(old(State()), p).workExperience,
        education := Merge(old(State()), p).education,
        certifications := Merge(old(State()), p).certifications)
    {
      if p.skills.Some? {
        skills := p.skills.value;
      }
      if p.workExperience.Some? {
        workExperience := p.workExperience.value;
      }
      if p.education.Some? {
        education := p.education.value;
      }
      if p.certifications.Some? {
        certifications := p.certifications.value;
      }
    }

    /** `resetForm`: back to `initialState` whatever came before. */
    method ResetForm()
      modifies this
      ensures State() == InitialState
      ensures Valid()
    {
      var s := InitialState;
      currentStep, currentSection, personalInfo := s.currentStep, s.currentSection, s.personalInfo;
      education, workExperience, skills := s.education, s.workExperience, s.skills;
      certifications, contactInfo := s.certifications, s.contactInfo;
      careerSummary, jobTitle := s.careerSummary, s.jobTitle;
      generatedResume, isAIEnhanced := s.generatedResume, s.isAIEnhanced;
      assert State() == s;
      InitialStateWellFormed();
    }
  }
}
