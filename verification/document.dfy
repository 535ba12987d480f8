/** The resume document the wizard accumulates, in the shapes the step forms
    actually write. A list item's field is an `Option` because the item may
    also come back from the AI service as parsed JSON, where any key can be
    missing; the forms read such fields with `??` or `||`. */
module Document {
  import opened Wrappers

  /** `personalInfo`: string-valued keys. The store starts with the eleven
      keys of `PersonalKeys`; shallow merges may add others. */
  type PersonalInfo = map<string, string>

  const PersonalKeys: set<string> := {
    "firstName", "lastName", "phone", "email", "country", "city",
    "address", "state", "zipCode", "portfolio", "linkedin"
  }

  const BlankPersonalInfo: PersonalInfo := map k | k in PersonalKeys :: ""

  /** `personalInfo[key] || ""`: a missing key reads as "". */
  function Lookup(info: PersonalInfo, key: string): (v: string)
    ensures key in info ==> v == info[key]
    ensures key !in info ==> v == ""
  {
    if key in info then info[key] else ""
  }

  /** A `workExperience` item. The work step writes company, position, the
      two dates, responsibilities, skills and achievements; the AI service is
      asked for jobTitle and description instead of position and
      responsibilities, so both pairs of keys can occur. */
  datatype WorkItem = WorkItem(
    company: Option<string>,
    position: Option<string>,
    startDate: Option<string>,
    endDate: Option<string>,
    responsibilities: Option<string>,
    skills: Option<seq<string>>,
    achievements: Option<seq<string>>,
    jobTitle: Option<string>,
    description: Option<string>)

  /** An `education` item as the education step writes it. */
  datatype EducationItem = EducationItem(
    degree: Option<string>,
    institution: Option<string>,
    major: Option<string>,
    startDate: Option<string>,
    endDate: Option<string>,
    achievements: Option<seq<string>>)

  /** A `certifications` item: the certifications step writes title,
      organization and the two dates; the preview also reads `name` and
      `description`, which only the AI service may supply. */
  datatype CertificationItem = CertificationItem(
    title: Option<string>,
    organization: Option<string>,
    issueDate: Option<string>,
    expiryDate: Option<string>,
    name: Option<string>,
    description: Option<string>)

  datatype OtherSocial = OtherSocial(platform: string, url: string)

  /** `contactInfo`: starts as `{}`. `otherSocial` is absent (None), null
      (Some(None)) or a platform and url (Some(Some(o))). */
  datatype ContactInfo = ContactInfo(
    linkedin: Option<string>,
    portfolio: Option<string>,
    otherSocial: Option<Option<OtherSocial>>)

  const EmptyContactInfo: ContactInfo := ContactInfo(None, None, None)

  /** The payload of `setGeneratedResume`: every key optional. */
  datatype EnhancedData = EnhancedData(
    personalInfo: Option<PersonalInfo>,
    jobTitle: Option<string>,
    careerSummary: Option<string>,
    skills: Option<seq<string>>,
    workExperience: Option<seq<WorkItem>>,
    education: Option<seq<EducationItem>>,
    certifications: Option<seq<CertificationItem>>)

  /** `generatedResume`: "" until the first merge, then
      `JSON.stringify(payload)`, kept here as the payload it serialises. */
  datatype GeneratedResume = NotGenerated | Serialized(payload: EnhancedData)

  /** The whole store: wizard progress plus the document. */
  datatype CvState = CvState(
    currentStep: int,
    currentSection: string,
    personalInfo: PersonalInfo,
    education: seq<EducationItem>,
    workExperience: seq<WorkItem>,
    skills: seq<string>,
    certifications: seq<CertificationItem>,
    contactInfo: ContactInfo,
    careerSummary: string,
    jobTitle: string,
    generatedResume: GeneratedResume,
    isAIEnhanced: bool)

  /** The invariant every reducer keeps: the eleven personal keys are set. */
  ghost predicate WellFormed(s: CvState) {
    PersonalKeys <= s.personalInfo.Keys
  }
}
