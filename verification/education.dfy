/** The education step: rows of degree, institution, major, two dates and
    achievement file names, saved into the store either when the form is
    submitted (advancing to step 5) or when the user switches to the
    certifications sub-view. */
module EducationStep {
  import opened Wrappers
  import opened JsStrings
  import opened JsArrays
  import opened DateCodec
  import opened Document
  import opened CvSlice

  /** An education row as the form edits it. The texts stay optional because
      the row is spread from a stored item, which may lack keys. */
  datatype EducationRow = EducationRow(
    degree: Option<string>,
    institution: Option<string>,
    major: Option<string>,
    startDate: Option<JsDate>,
    endDate: Option<JsDate>,
    achievements: seq<string>)

  const BlankEducation := EducationRow(Some(""), Some(""), Some(""), None, None, [])

  /** One edit an input of the row makes through `updateEducationItem`. */
  datatype EducationEdit =
    | SetDegree(text: string)
    | SetInstitution(text: string)
    | SetMajor(text: string)
    | SetStartDate(date: Option<JsDate>)
    | SetEndDate(date: Option<JsDate>)

  /** `parseDateString`: no text gives null; a text with "/" is read as
      day/month/year; otherwise a text with "-" goes to the built-in `Date`
      parser `nativeParse`; anything else gives null. */
  function ParseDateString(s: Option<string>, nativeParse: string -> JsDate): (r: Option<JsDate>)
    ensures r.None? <==> s in {None, Some("")} || ('/' !in s.value && '-' !in s.value)
    ensures s.Some? && s.value != "" && '/' in s.value ==> r == Some(FromSlashed(s.value))
    ensures s.Some? && s.value != "" && '/' !in s.value && '-' in s.value ==> r == Some(nativeParse(s.value))
  {
    if s.None? || s.value == "" then None
    else if '/' in s.value then Some(FromSlashed(s.value))
    else if '-' in s.value then Some(nativeParse(s.value))
    else None
  }

  /** A stored date as the row holds it: the parsed date when it is valid,
      null otherwise. */
  function LoadDate(s: Option<string>, nativeParse: string -> JsDate): (r: Option<JsDate>)
    ensures r.Some? ==> IsValidDate(r.value) && r == ParseDateString(s, nativeParse)
    ensures r.None? <==> ParseDateString(s, nativeParse).None? || !IsValidDate(ParseDateString(s, nativeParse).value)
  {
    var p := ParseDateString(s, nativeParse);
    if p.Some? && IsValidDate(p.value) then p else None
  }

  function LoadEducation(item: EducationItem, nativeParse: string -> JsDate): EducationRow {
    EducationRow(item.degree, item.institution, item.major,
                 LoadDate(item.startDate, nativeParse), LoadDate(item.endDate, nativeParse),
                 item.achievements.GetOr([]))
  }

  /** The rows the form starts with: the stored items, or one blank row. */
  function InitialEducations(saved: seq<EducationItem>, nativeParse: string -> JsDate): (rows: seq<EducationRow>)
    ensures |rows| >= 1
    ensures |saved| > 0 ==> (|rows| == |saved| &&
      forall i :: 0 <= i < |saved| ==> rows[i] == LoadEducation(saved[i], nativeParse))
    ensures |saved| == 0 ==> rows == [BlankEducation]
  {
    if |saved| > 0 then seq(|saved|, i requires 0 <= i < |saved| => LoadEducation(saved[i], nativeParse))
    else [BlankEducation]
  }

  /** One row as saved: the texts as they are, valid dates as "dd/MM/yyyy"
      and anything else as "". */
  function FormatEducation(e: EducationRow): (item: EducationItem)
    ensures item.degree == e.degree && item.institution == e.institution && item.major == e.major
    ensures item.achievements == Some(e.achievements)
    ensures item.startDate.Some? && (item.startDate.value == "" <==> !(e.startDate.Some? && IsValidDate(e.startDate.value)))
    ensures item.endDate.Some? && (item.endDate.value == "" <==> !(e.endDate.Some? && IsValidDate(e.endDate.value)))
  {
    EducationItem(e.degree, e.institution, e.major, Some(EncodeDate(e.startDate)), Some(EncodeDate(e.endDate)),
                  Some(e.achievements))
  }

  function FormatEducations(rows: seq<EducationRow>): (items: seq<EducationItem>)
    ensures |items| == |rows| && forall i :: 0 <= i < |rows| ==> items[i] == FormatEducation(rows[i])
  {
    seq(|rows|, i requires 0 <= i < |rows| => FormatEducation(rows[i]))
  }

  /** A saved date is read back through the "/" branch, so the built-in
      parser is never consulted. */
  lemma SavedDateReloads(d: Option<JsDate>, nativeParse: string -> JsDate)
    requires Reloadable(d)
    ensures LoadDate(Some(EncodeDate(d)), nativeParse) == d
  {
    if d.Some? {
      FormatHasSlash(d.value.date);
      FormatThenParse(d.value.date);
    }
  }

  /** Saving the rows and opening the step again gives the same rows. */
  lemma SaveThenReload(rows: seq<EducationRow>, nativeParse: string -> JsDate)
    requires |rows| >= 1
    requires forall i :: 0 <= i < |rows| ==> Reloadable(rows[i].startDate) && Reloadable(rows[i].endDate)
    ensures InitialEducations(FormatEducations(rows), nativeParse) == rows
  {
    var back := InitialEducations(FormatEducations(rows), nativeParse);
    forall i | 0 <= i < |rows| ensures back[i] == rows[i] {
      SavedDateReloads(rows[i].startDate, nativeParse);
      SavedDateReloads(rows[i].endDate, nativeParse);
    }
  }

  /** `{ ...edu, [field]: value }` for one of the row's inputs. */
  function ApplyEdit(e: EducationRow, edit: EducationEdit): (r: EducationRow)
    ensures r.achievements == e.achievements
    ensures edit.SetDegree? ==> r == e.(degree := Some(edit.text))
    ensures edit.SetInstitution? ==> r == e.(institution := Some(edit.text))
    ensures edit.SetMajor? ==> r == e.(major := Some(edit.text))
    ensures edit.SetStartDate? ==> r == e.(startDate := edit.date)
    ensures edit.SetEndDate? ==> r == e.(endDate := edit.date)
  {
    match edit
    case SetDegree(t) => e.(degree := Some(t))
    case SetInstitution(t) => e.(institution := Some(t))
    case SetMajor(t) => e.(major := Some(t))
    case SetStartDate(d) => e.(startDate := d)
    case SetEndDate(d) => e.(endDate := d)
  }

  /** The form's local state: its rows and the names of the uploaded files. */
  class EducationForm {
    var educations: seq<EducationRow>
    var uploadedFiles: seq<string>

    /** The form always shows at least one row. */
    ghost predicate Valid()
      reads this
    {
      |educations| >= 1
    }

    /** Opening the step: rows from the store and no files. */
    constructor (saved: seq<EducationItem>, nativeParse: string -> JsDate)
      ensures Valid()
      ensures educations == InitialEducations(saved, nativeParse) && uploadedFiles == []
    {
      educations := InitialEducations(saved, nativeParse);
      uploadedFiles := [];
    }

    /** `addEducation`. */
    method AddEducation()
      requires Valid()
      modifies this
      ensures Valid()
      ensures educations == old(educations) + [BlankEducation] && uploadedFiles == old(uploadedFiles)
    {
      educations := educations + [BlankEducation];
    }

    /** `removeEducation`: the last remaining row stays. */
    method RemoveEducation(index: int)
      requires Valid()
      modifies this
      ensures Valid()
      ensures educations == RemoveKeepingOne(old(educations), index) && uploadedFiles == old(uploadedFiles)
    {
      if |educations| > 1 {
        educations := RemoveAt(educations, index);
      }
    }

    /** `updateEducationItem`: the edited row changes, the others do not. */
    method UpdateEducationItem(index: int, edit: EducationEdit)
      requires Valid()
      modifies this
      ensures Valid()
      ensures |educations| == |old(educations)|
      ensures forall j :: 0 <= j < |educations| ==>
        educations[j] == if j == index then ApplyEdit(old(educations)[j], edit) else old(educations)[j]
      ensures uploadedFiles == old(uploadedFiles)
    {
      educations := MapAt(educations, index, (e: EducationRow) => ApplyEdit(e, edit));
    }

    /** `handleFileUpload`: the files are listed and their names are appended
        to the first row's achievements. */
    method HandleFileUpload(names: seq<string>)
      requires Valid()
      modifies this
      ensures Valid()
      ensures uploadedFiles == old(uploadedFiles) + names
      ensures educations[0].achievements == old(educations)[0].achievements + names
      ensures educations == [old(educations)[0].(achievements := educations[0].achievements)] + old(educations)[1..]
    {
      uploadedFiles := uploadedFiles + names;
      educations := MapAt(educations, 0, (e: EducationRow) => e.(achievements := e.achievements + names));
    }

    /** `removeFile`: the file leaves the list, and every achievement of the
        first row with its name goes. */
    method RemoveFile(index: int)
      requires Valid()
      requires 0 <= index < |uploadedFiles|
      modifies this
      ensures Valid()
      ensures uploadedFiles == old(uploadedFiles)[..index] + old(uploadedFiles)[index + 1..]
      ensures old(uploadedFiles)[index] !in educations[0].achievements
      ensures multiset(educations[0].achievements) == multiset(old(educations)[0].achievements)[old(uploadedFiles)[index] := 0]
      ensures educations[0].achievements == RemoveValue(old(educations)[0].achievements, old(uploadedFiles)[index])
      ensures educations == [old(educations)[0].(achievements := educations[0].achievements)] + old(educations)[1..]
    {
      var name := uploadedFiles[index];
      uploadedFiles := RemoveAt(uploadedFiles, index);
      educations := MapAt(educations, 0, (e: EducationRow) => e.(achievements := RemoveValue(e.achievements, name)));
    }

    /** `saveAndAdvance`: the rows go to `education` and the wizard moves to
        the given step. */
    method SaveAndAdvance(store: CvStore, step: int)
      requires Valid() && store.Valid()
      modifies store
      ensures Valid() && store.Valid()
      ensures store.State() == old(store.State()).(education := FormatEducations(educations), currentStep := step)
    {
      store.UpdateEducation(FormatEducations(educations));
      store.SetCurrentStep(step);
    }

    /** `onSubmit`: save and go to step 5. */
    method OnSubmit(store: CvStore)
      requires Valid() && store.Valid()
      modifies store
      ensures Valid() && store.Valid()
      ensures store.State() == old(store.State()).(education := FormatEducations(educations), currentStep := 5)
    {
      SaveAndAdvance(store, 5);
    }

    /** `handleCertificationsClick`: save and switch to the certifications
        sub-view; the step number stays. */
    method HandleCertificationsClick(store: CvStore)
      requires Valid() && store.Valid()
      modifies store
      ensures Valid() && store.Valid()
      ensures store.State() == old(store.State()).(education := FormatEducations(educations), currentSection := "certifications")
    {
      store.UpdateEducation(FormatEducations(educations));
      store.SetCurrentSection("certifications");
    }
  }
}
