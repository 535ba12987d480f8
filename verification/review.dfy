/** Step 7, the resume preview: every text it shows, its placeholders, and
    the file name of the PDF download. */
module Review {
  import opened Wrappers
  import opened JsStrings
  import opened Document
  import opened CvSlice
  import WorkExperienceStep
  import CertificationsStep
  import DateCodec

  /** `value || placeholder` on a value that may be missing. */
  function OrText(value: Option<string>, placeholder: string): (r: string)
    ensures value.Some? && value.value != "" ==> r == value.value
    ensures !(value.Some? && value.value != "") ==> r == placeholder
  {
    if value.Some? && value.value != "" then value.value else placeholder
  }

  /** The header and contact texts of the preview. */
  datatype DisplayData = DisplayData(
    firstName: string, lastName: string, jobTitle: string, phone: string, email: string,
    address: string, portfolio: string, linkedin: string, careerSummary: string)

  const AddressPlaceholder := "Your Address"

  /** `xs.filter(Boolean)` on texts: the non-empty ones, in order. */
  function NonEmpty(parts: seq<string>): (r: seq<string>)
    ensures |r| <= |parts|
    ensures forall x :: x in r <==> x in parts && x != ""
    ensures forall i :: 0 <= i < |r| ==> r[i] != ""
    ensures multiset(r) == multiset(parts)["" := 0]
  {
    if |parts| == 0 then []
    else
      assert parts == [parts[0]] + parts[1..];
      (if parts[0] == "" then [] else [parts[0]]) + NonEmpty(parts[1..])
  }

  /** Filtering keeps the order: the filtered concatenation is the
      concatenation of the filtered parts. */
  lemma {:induction false} NonEmptyAppend(a: seq<string>, b: seq<string>)
    ensures NonEmpty(a + b) == NonEmpty(a) + NonEmpty(b)
    decreases |a|
  {
    if |a| == 0 {
      assert a + b == b;
    } else {
      assert (a + b)[1..] == a[1..] + b;
      NonEmptyAppend(a[1..], b);
    }
  }

  /** The address line: the address, city, state, zip code and country that
      are set, joined by ", ", or the placeholder when none is. */
  function AddressLine(info: PersonalInfo): (line: string)
    ensures line != ""
    ensures line == AddressPlaceholder <==>
      NonEmpty(AddressParts(info)) == [] || Join(NonEmpty(AddressParts(info)), ", ") == AddressPlaceholder
    ensures NonEmpty(AddressParts(info)) != [] ==> line == Join(NonEmpty(AddressParts(info)), ", ")
    ensures NonEmpty(AddressParts(info)) == [] ==> line == AddressPlaceholder
    ensures |NonEmpty(AddressParts(info))| == 1 ==> line == NonEmpty(AddressParts(info))[0]
  {
    var set_ := NonEmpty(AddressParts(info));
    JoinOfNonEmpty(set_, ", ");
    Or(Join(set_, ", "), AddressPlaceholder)
  }

  function AddressParts(info: PersonalInfo): seq<string> {
    [Lookup(info, "address"), Lookup(info, "city"), Lookup(info, "state"),
     Lookup(info, "zipCode"), Lookup(info, "country")]
  }

  /** Joining at least one non-empty text gives a non-empty text. */
  lemma JoinOfNonEmpty(parts: seq<string>, sep: string)
    requires forall i :: 0 <= i < |parts| ==> parts[i] != ""
    ensures Join(parts, sep) == "" <==> parts == []
  {
    if parts != [] {
      assert |Join(parts, sep)| >= |parts[0]| > 0;
    }
  }

  /** With only the address filled in, the line is the address itself. */
  lemma AddressAlone(info: PersonalInfo)
    requires Lookup(info, "address") != ""
    requires Lookup(info, "city") == "" && Lookup(info, "state") == ""
    requires Lookup(info, "zipCode") == "" && Lookup(info, "country") == ""
    ensures AddressLine(info) == Lookup(info, "address")
  {
    var parts := AddressParts(info);
    assert NonEmpty(parts[4..]) == [];
    assert NonEmpty(parts[3..]) == [];
    assert NonEmpty(parts[2..]) == [];
    assert NonEmpty(parts[1..]) == [];
    assert NonEmpty(parts) == [Lookup(info, "address")];
  }

  /** `displayData`: a stored, non-empty value is shown as it is; a missing
      or empty one shows its placeholder, so no header text is ever blank. */
  function DisplayDataOf(s: CvState): (d: DisplayData)
    ensures d.firstName == Or(Lookup(s.personalInfo, "firstName"), "YOUR")
    ensures d.lastName == Or(Lookup(s.personalInfo, "lastName"), "NAME")
    ensures d.jobTitle == Or(s.jobTitle, "Your Profession")
    ensures d.phone == Or(Lookup(s.personalInfo, "phone"), "+880 1XXXXXXXXX")
    ensures d.email == Or(Lookup(s.personalInfo, "email"), "your.email@example.com")
    ensures d.portfolio == Or(Lookup(s.personalInfo, "portfolio"), "your-portfolio.com")
    ensures d.linkedin == Or(Lookup(s.personalInfo, "linkedin"), "linkedin.com/in/yourprofile")
    ensures d.careerSummary == Or(s.careerSummary,
      "Please add your career summary to showcase your professional background and expertise.")
    ensures d.address == AddressLine(s.personalInfo)
    ensures d.firstName != "" && d.lastName != "" && d.jobTitle != "" && d.phone != "" && d.email != ""
    ensures d.address != "" && d.portfolio != "" && d.linkedin != "" && d.careerSummary != ""
  {
    var info := s.personalInfo;
    DisplayData(
      Or(Lookup(info, "firstName"), "YOUR"),
      Or(Lookup(info, "lastName"), "NAME"),
      Or(s.jobTitle, "Your Profession"),
      Or(Lookup(info, "phone"), "+880 1XXXXXXXXX"),
      Or(Lookup(info, "email"), "your.email@example.com"),
      AddressLine(info),
      Or(Lookup(info, "portfolio"), "your-portfolio.com"),
      Or(Lookup(info, "linkedin"), "linkedin.com/in/yourprofile"),
      Or(s.careerSummary, "Please add your career summary to showcase your professional background and expertise."))
  }

  /** A fresh store previews as placeholders throughout. */
  lemma FreshStorePreview()
    ensures DisplayDataOf(InitialState).firstName == "YOUR" && DisplayDataOf(InitialState).lastName == "NAME"
    ensures DisplayDataOf(InitialState).address == AddressPlaceholder
  {
    var parts := AddressParts(InitialState.personalInfo);
    assert "address" in PersonalKeys && "city" in PersonalKeys && "state" in PersonalKeys;
    assert "zipCode" in PersonalKeys && "country" in PersonalKeys;
    assert parts == ["", "", "", "", ""];
    assert NonEmpty(parts[4..]) == [];
    assert NonEmpty(parts[3..]) == [];
    assert NonEmpty(parts[2..]) == [];
    assert NonEmpty(parts[1..]) == [];
    assert NonEmpty(parts) == [];
  }

  /** `displaySkills`: the skills, or one hint when there are none. */
  function DisplaySkills(skills: seq<string>): (r: seq<string>)
    ensures |r| >= 1
    ensures |skills| > 0 ==> r == skills
    ensures |skills| == 0 ==> r == ["Add your skills"]
  {
    if |skills| > 0 then skills else ["Add your skills"]
  }

  /** An education entry of the preview. */
  datatype EducationEntry = EducationEntry(degree: string, dates: string, institution: string, major: Option<string>)

  /** `{start || "Start"} – {end || "End"}`. */
  function DateRange(start: Option<string>, end: Option<string>): string {
    OrText(start, "Start") + " – " + OrText(end, "End")
  }

  function EducationEntryOf(e: EducationItem): (v: EducationEntry)
    ensures v.degree == OrText(e.degree, "Degree Name")
    ensures v.institution == OrText(e.institution, "Institution Name")
    ensures v.dates == DateRange(e.startDate, e.endDate)
    ensures v.major.Some? <==> e.major.Some? && e.major.value != ""
    ensures v.major.Some? ==> v.major == e.major
  {
    EducationEntry(OrText(e.degree, "Degree Name"), DateRange(e.startDate, e.endDate),
                   OrText(e.institution, "Institution Name"),
                   if e.major.Some? && e.major.value != "" then e.major else None)
  }

  /** A certification entry of the preview. */
  datatype CertificationEntry = CertificationEntry(title: string, dates: string, organization: string, description: Option<string>)

  /** The certification date label: the issue date, followed by " - " and
      the expiry date when there is one; "Date" when there is no issue date. */
  function CertificationDates(issue: Option<string>, expiry: Option<string>): (text: string)
    ensures issue.Some? && issue.value != "" && expiry.Some? && expiry.value != "" ==>
      text == issue.value + " - " + expiry.value
    ensures issue.Some? && issue.value != "" && !(expiry.Some? && expiry.value != "") ==> text == issue.value
    ensures !(issue.Some? && issue.value != "") ==> text == "Date"
  {
    if issue.Some? && issue.value != "" then
      issue.value + (if expiry.Some? && expiry.value != "" then " - " + expiry.value else "")
    else "Date"
  }

  function CertificationEntryOf(c: CertificationItem): (v: CertificationEntry)
    ensures v.title == OrText(c.title, OrText(c.name, "Certification Name"))
    ensures v.dates == CertificationDates(c.issueDate, c.expiryDate)
    ensures v.organization == OrText(c.organization, "Organization")
    ensures v.description.Some? <==> c.description.Some? && c.description.value != ""
    ensures v.description.Some? ==> v.description == c.description
  {
    CertificationEntry(OrText(c.title, OrText(c.name, "Certification Name")),
                       CertificationDates(c.issueDate, c.expiryDate),
                       OrText(c.organization, "Organization"),
                       if c.description.Some? && c.description.value != "" then c.description else None)
  }

  /** The date label of a certification saved by its form reads "Date"
      exactly when the row had no valid issue date. */
  lemma SavedCertificationDateLabel(row: CertificationsStep.CertificationRow)
    ensures var saved := CertificationsStep.FormatCertification(row);
      CertificationDates(saved.issueDate, saved.expiryDate) == "Date"
      <==> !(row.issueDate.Some? && DateCodec.IsValidDate(row.issueDate.value))
  {
    var saved := CertificationsStep.FormatCertification(row);
    var issue := saved.issueDate.value;
    if issue != "" {
      var shown := CertificationDates(saved.issueDate, saved.expiryDate);
      DateCodec.FormatHasSlash(row.issueDate.value.date);
      assert shown[..|issue|] == issue;
      assert '/' in shown;
    }
  }

  /** A work entry of the preview. */
  datatype WorkEntry = WorkEntry(title: string, dates: string, company: string, description: Option<string>)

  /** The work entry as the preview computes it: the title and description
      come from the `jobTitle` and `description` keys only. */
  function WorkEntryAsWritten(w: WorkItem): (v: WorkEntry)
    ensures v.title == OrText(w.jobTitle, "Job Title")
    ensures v.description.Some? <==> w.description.Some? && w.description.value != ""
    ensures v.description.Some? ==> v.description == w.description
    ensures v.company == OrText(w.company, "Company Name")
    ensures v.dates == DateRange(w.startDate, w.endDate)
  {
    WorkEntry(OrText(w.jobTitle, "Job Title"), DateRange(w.startDate, w.endDate), OrText(w.company, "Company Name"),
              if w.description.Some? && w.description.value != "" then w.description else None)
  }

  /** Every row the work step submits previews with the "Job Title"
      placeholder and without its description, whatever was typed: the step
      writes `position` and `responsibilities`, which the preview never
      reads. */
  lemma SubmittedWorkLosesTitle(e: WorkExperienceStep.Experience)
    ensures WorkEntryAsWritten(WorkExperienceStep.FormatExperience(e)).title == "Job Title"
    ensures WorkEntryAsWritten(WorkExperienceStep.FormatExperience(e)).description.None?
  {
  }

  /** A concrete case: a row titled "Frontend Developer". */
  lemma SubmittedWorkLosesTitleExample()
    ensures var e := WorkExperienceStep.BlankExperience.(jobTitle := "Frontend Developer", description := "Built the UI");
      WorkEntryAsWritten(WorkExperienceStep.FormatExperience(e)).title == "Job Title"
  {
    SubmittedWorkLosesTitle(WorkExperienceStep.BlankExperience.(jobTitle := "Frontend Developer", description := "Built the UI"));
  }

  /** The work entry as evidently intended: the AI's `jobTitle` and
      `description` when present, else the form's `position` and
      `responsibilities`. */
  function WorkEntryOf(w: WorkItem): (v: WorkEntry)
    ensures v.title == OrText(w.jobTitle, OrText(w.position, "Job Title"))
    ensures v.company == OrText(w.company, "Company Name")
    ensures v.dates == DateRange(w.startDate, w.endDate)
    ensures v.description.Some? ==> v.description.value != ""
  {
    var description := if w.description.Some? && w.description.value != "" then w.description
                       else if w.responsibilities.Some? && w.responsibilities.value != "" then w.responsibilities
                       else None;
    WorkEntry(OrText(w.jobTitle, OrText(w.position, "Job Title")), DateRange(w.startDate, w.endDate),
              OrText(w.company, "Company Name"), description)
  }

  /** With the correction, a submitted row previews with what was typed, and
      an AI item (which carries `jobTitle`) previews as before. */
  lemma WorkEntryShowsTypedTitle(e: WorkExperienceStep.Experience, w: WorkItem)
    ensures e.jobTitle != "" ==> WorkEntryOf(WorkExperienceStep.FormatExperience(e)).title == e.jobTitle
    ensures e.description != "" ==> WorkEntryOf(WorkExperienceStep.FormatExperience(e)).description == Some(e.description)
    ensures e.description == "" ==> WorkEntryOf(WorkExperienceStep.FormatExperience(e)).description.None?
    ensures w.jobTitle.Some? && w.jobTitle.value != "" ==> WorkEntryOf(w).title == WorkEntryAsWritten(w).title
    ensures WorkEntryAsWritten(w).description.Some? ==> WorkEntryOf(w).description == WorkEntryAsWritten(w).description
  {
  }

  /** The whole preview. A section is listed only when it has entries. */
  datatype Preview = Preview(
    header: DisplayData,
    skills: seq<string>,
    education: seq<EducationEntry>,
    certifications: seq<CertificationEntry>,
    work: seq<WorkEntry>)

  function EducationEntries(items: seq<EducationItem>): (v: seq<EducationEntry>)
    ensures |v| == |items| && forall i :: 0 <= i < |items| ==> v[i] == EducationEntryOf(items[i])
  {
    seq(|items|, i requires 0 <= i < |items| => EducationEntryOf(items[i]))
  }

  function CertificationEntries(items: seq<CertificationItem>): (v: seq<CertificationEntry>)
    ensures |v| == |items| && forall i :: 0 <= i < |items| ==> v[i] == CertificationEntryOf(items[i])
  {
    seq(|items|, i requires 0 <= i < |items| => CertificationEntryOf(items[i]))
  }

  function WorkEntriesAsWritten(items: seq<WorkItem>): (v: seq<WorkEntry>)
    ensures |v| == |items| && forall i :: 0 <= i < |items| ==> v[i] == WorkEntryAsWritten(items[i])
  {
    seq(|items|, i requires 0 <= i < |items| => WorkEntryAsWritten(items[i]))
  }

  function WorkEntries(items: seq<WorkItem>): (v: seq<WorkEntry>)
    ensures |v| == |items| && forall i :: 0 <= i < |items| ==> v[i] == WorkEntryOf(items[i])
  {
    seq(|items|, i requires 0 <= i < |items| => WorkEntryOf(items[i]))
  }

  /** The preview as written: work entries read only `jobTitle` and
      `description`. */
  function PreviewOf(s: CvState): (p: Preview)
    ensures p.header == DisplayDataOf(s) && p.skills == DisplaySkills(s.skills)
    ensures |p.education| == |s.education| && |p.certifications| == |s.certifications| && |p.work| == |s.workExperience|
    ensures forall i :: 0 <= i < |s.education| ==> p.education[i] == EducationEntryOf(s.education[i])
    ensures forall i :: 0 <= i < |s.certifications| ==> p.certifications[i] == CertificationEntryOf(s.certifications[i])
    ensures forall i :: 0 <= i < |s.workExperience| ==> p.work[i] == WorkEntryAsWritten(s.workExperience[i])
  {
    Preview(DisplayDataOf(s), DisplaySkills(s.skills), EducationEntries(s.education),
            CertificationEntries(s.certifications), WorkEntriesAsWritten(s.workExperience))
  }

  /** The preview as evidently intended: the same, except that each work
      entry falls back to the form's `position` and `responsibilities`. */
  function PreviewIntended(s: CvState): (p: Preview)
    ensures p.header == PreviewOf(s).header && p.skills == PreviewOf(s).skills
    ensures p.education == PreviewOf(s).education && p.certifications == PreviewOf(s).certifications
    ensures |p.work| == |s.workExperience|
    ensures forall i :: 0 <= i < |s.workExperience| ==> p.work[i] == WorkEntryOf(s.workExperience[i])
  {
    PreviewOf(s).(work := WorkEntries(s.workExperience))
  }

  /** The two previews differ only in work entries whose item lacks an AI
      `jobTitle` or `description`: on items that carry both non-empty, they
      agree. */
  lemma PreviewIntendedAgrees(s: CvState)
    requires forall i :: 0 <= i < |s.workExperience| ==>
      TruthyText(s.workExperience[i].jobTitle) && TruthyText(s.workExperience[i].description)
    ensures PreviewIntended(s) == PreviewOf(s)
  {
    var p, q := PreviewIntended(s), PreviewOf(s);
    forall i | 0 <= i < |s.workExperience| ensures p.work[i] == q.work[i] {
      var w := s.workExperience[i];
      assert OrText(w.jobTitle, OrText(w.position, "Job Title")) == w.jobTitle.value;
    }
  }

  /** A value interpolated into a template: a missing key prints as "undefined". */
  function Interpolated(info: PersonalInfo, key: string): (t: string)
    ensures key in info ==> t == info[key]
    ensures key !in info ==> t == "undefined"
  {
    if key in info then info[key] else "undefined"
  }

  /** The downloaded file's name, `Resume_<firstName>_<lastName>.pdf`. */
  function DownloadFileName(info: PersonalInfo): (name: string)
    ensures |name| >= 12 && name[..7] == "Resume_" && name[|name| - 4..] == ".pdf"
  {
    "Resume_" + Interpolated(info, "firstName") + "_" + Interpolated(info, "lastName") + ".pdf"
  }

  /** In a store that keeps its invariant both names are present, so the
      file name never contains "undefined" by accident; a fresh store
      downloads "Resume__.pdf". */
  lemma DownloadFileNameOfStore(s: CvState)
    requires WellFormed(s)
    ensures DownloadFileName(s.personalInfo) ==
      "Resume_" + s.personalInfo["firstName"] + "_" + s.personalInfo["lastName"] + ".pdf"
    ensures DownloadFileName(InitialState.personalInfo) == "Resume__.pdf"
  {
    assert "firstName" in PersonalKeys && "lastName" in PersonalKeys;
  }
}
