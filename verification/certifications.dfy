/** The certifications sub-view of step 4: rows of title, organization and
    two dates, saved into the store when the user submits (back to the
    education view, step 5) or switches back to the education view. */
module CertificationsStep {
  import opened Wrappers
  import opened JsArrays
  import opened DateCodec
  import opened Document
  import opened CvSlice
  import EducationStep
  import JsStrings

  /** A certification row. Spreading a stored item keeps its other keys,
      so `name` and `description` ride along untouched. */
  datatype CertificationRow = CertificationRow(
    title: Option<string>,
    organization: Option<string>,
    issueDate: Option<JsDate>,
    expiryDate: Option<JsDate>,
    name: Option<string>,
    description: Option<string>)

  const BlankCertification := CertificationRow(Some(""), Some(""), None, None, None, None)

  /** One edit an input of the row makes through `updateCertificationItem`. */
  datatype CertificationEdit =
    | SetTitle(text: string)
    | SetOrganization(text: string)
    | SetIssueDate(date: Option<JsDate>)
    | SetExpiryDate(date: Option<JsDate>)

  /** This view's `parseDateString`: every non-empty text is split on "/"
      and the date is kept only when it is valid. */
  function ParseDateString(s: Option<string>): (r: Option<JsDate>)
    ensures r.Some? ==> s.Some? && IsValidDate(r.value) && r.value == FromSlashed(s.value)
    ensures r.None? <==> s in {None, Some("")} || !IsValidDate(FromSlashed(s.value))
  {
    if s.None? || s.value == "" then None
    else if IsValidDate(FromSlashed(s.value)) then Some(FromSlashed(s.value))
    else None
  }

  /** The two views read a stored date alike unless the text has a "-" and
      no "/": the education view hands that text to the built-in parser,
      while this view finds no day/month/year in it and yields null. */
  lemma DateParsersAgree(s: Option<string>, nativeParse: string -> JsDate)
    requires s.None? || '/' in s.value || '-' !in s.value
    ensures ParseDateString(s) == EducationStep.LoadDate(s, nativeParse)
  {
    if s.Some? && s.value != "" && '/' !in s.value {
      assert |JsStrings.Split(s.value, '/')| == 1 by {
        JsStrings.SplitWithoutSeparator(s.value, '/');
      }
    }
  }

  function LoadCertification(item: CertificationItem): CertificationRow {
    CertificationRow(item.title, item.organization, ParseDateString(item.issueDate),
                     ParseDateString(item.expiryDate), item.name, item.description)
  }

  /** The rows the view starts with: the stored items, or one blank row. */
  function InitialCertifications(saved: seq<CertificationItem>): (rows: seq<CertificationRow>)
    ensures |rows| >= 1
    ensures |saved| > 0 ==> (|rows| == |saved| &&
      forall i :: 0 <= i < |saved| ==> rows[i] == LoadCertification(saved[i]))
    ensures |saved| == 0 ==> rows == [BlankCertification]
  {
    if |saved| > 0 then seq(|saved|, i requires 0 <= i < |saved| => LoadCertification(saved[i]))
    else [BlankCertification]
  }

  /** One row as saved: every other key as it is, valid dates as
      "dd/MM/yyyy" and anything else as "". */
  function FormatCertification(c: CertificationRow): (item: CertificationItem)
    ensures item.title == c.title && item.organization == c.organization
    ensures item.name == c.name && item.description == c.description
    ensures item.issueDate.Some? && (item.issueDate.value == "" <==> !(c.issueDate.Some? && IsValidDate(c.issueDate.value)))
    ensures item.expiryDate.Some? && (item.expiryDate.value == "" <==> !(c.expiryDate.Some? && IsValidDate(c.expiryDate.value)))
  {
    CertificationItem(c.title, c.organization, Some(EncodeDate(c.issueDate)), Some(EncodeDate(c.expiryDate)),
                      c.name, c.description)
  }

  function FormatCertifications(rows: seq<CertificationRow>): (items: seq<CertificationItem>)
    ensures |items| == |rows| && forall i :: 0 <= i < |rows| ==> items[i] == FormatCertification(rows[i])
  {
    seq(|rows|, i requires 0 <= i < |rows| => FormatCertification(rows[i]))
  }

  /** A saved date is read back as the same date. */
  lemma SavedDateReloads(d: Option<JsDate>)
    requires Reloadable(d)
    ensures ParseDateString(Some(EncodeDate(d))) == d
  {
    if d.Some? {
      FormatThenParse(d.value.date);
    }
  }

  /** Saving the rows and opening the view again gives the same rows. */
  lemma SaveThenReload(rows: seq<CertificationRow>)
    requires |rows| >= 1
    requires forall i :: 0 <= i < |rows| ==> Reloadable(rows[i].issueDate) && Reloadable(rows[i].expiryDate)
    ensures InitialCertifications(FormatCertifications(rows)) == rows
  {
    var back := InitialCertifications(FormatCertifications(rows));
    forall i | 0 <= i < |rows| ensures back[i] == rows[i] {
      SavedDateReloads(rows[i].issueDate);
      SavedDateReloads(rows[i].expiryDate);
    }
  }

  /** `{ ...cert, [field]: value }` for one of the row's inputs. */
  function ApplyEdit(c: CertificationRow, edit: CertificationEdit): (r: CertificationRow)
    ensures r.name == c.name && r.description == c.description
    ensures edit.SetTitle? ==> r == c.(title := Some(edit.text))
    ensures edit.SetOrganization? ==> r == c.(organization := Some(edit.text))
    ensures edit.SetIssueDate? ==> r == c.(issueDate := edit.date)
    ensures edit.SetExpiryDate? ==> r == c.(expiryDate := edit.date)
  {
    match edit
    case SetTitle(t) => c.(title := Some(t))
    case SetOrganization(t) => c.(organization := Some(t))
    case SetIssueDate(d) => c.(issueDate := d)
    case SetExpiryDate(d) => c.(expiryDate := d)
  }

  /** The view's local state: its rows. */
  class CertificationsForm {
    var certifications: seq<CertificationRow>

    /** The view always shows at least one row. */
    ghost predicate Valid()
      reads this
    {
      |certifications| >= 1
    }

    /** Opening the view: rows from the store. */
    constructor (saved: seq<CertificationItem>)
      ensures Valid() && certifications == InitialCertifications(saved)
    {
      certifications := InitialCertifications(saved);
    }

    /** `addCertification`. */
    method AddCertification()
      requires Valid()
      modifies this
      ensures Valid() && certifications == old(certifications) + [BlankCertification]
    {
      certifications := certifications + [BlankCertification];
    }

    /** `removeCertification`: the last remaining row stays. */
    method RemoveCertification(index: int)
      requires Valid()
      modifies this
      ensures Valid() && certifications == RemoveKeepingOne(old(certifications), index)
    {
      if |certifications| > 1 {
        certifications := RemoveAt(certifications, index);
      }
    }

    /** `updateCertificationItem`: the edited row changes, the others do not. */
    method UpdateCertificationItem(index: int, edit: CertificationEdit)
      requires Valid()
      modifies this
      ensures Valid()
      ensures |certifications| == |old(certifications)|
      ensures forall j :: 0 <= j < |certifications| ==>
        certifications[j] == if j == index then ApplyEdit(old(certifications)[j], edit) else old(certifications)[j]
    {
      certifications := MapAt(certifications, index, (c: CertificationRow) => ApplyEdit(c, edit));
    }

    /** `saveCertifications`: the rows go to `certifications`, and the saved
        items are returned. */
    method SaveCertifications(store: CvStore) returns (saved: seq<CertificationItem>)
      requires Valid() && store.Valid()
      modifies store
      ensures Valid() && store.Valid()
      ensures saved == FormatCertifications(certifications)
      ensures store.State() == old(store.State()).(certifications := saved)
    {
      saved := FormatCertifications(certifications);
      store.UpdateCertifications(saved);
    }

    /** `onSubmit`: save, back to the education view, step 5. */
    method OnSubmit(store: CvStore)
      requires Valid() && store.Valid()
      modifies store
      ensures Valid() && store.Valid()
      ensures store.State() == old(store.State()).(
        certifications := FormatCertifications(certifications),
        currentSection := "education",
        currentStep := 5)
    {
      var _ := SaveCertifications(store);
      store.SetCurrentSection("education");
      store.SetCurrentStep(5);
    }

    /** `handleEducationClick`: save and back to the education view; the
        step number stays. */
    method HandleEducationClick(store: CvStore)
      requires Valid() && store.Valid()
      modifies store
      ensures Valid() && store.Valid()
      ensures store.State() == old(store.State()).(
        certifications := FormatCertifications(certifications),
        currentSection := "education")
    {
      var _ := SaveCertifications(store);
      store.SetCurrentSection("education");
    }
  }
}
