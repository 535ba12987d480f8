/** Step 5, contact information: LinkedIn and portfolio links checked as
    URLs, and one other social profile, saved into `contactInfo` and (the
    two links) into `personalInfo`. */
module ContactInfoStep {
  import opened Wrappers
  import opened Document
  import opened CvSlice

  /** The rule on the LinkedIn and portfolio inputs: empty, or a URL the
      `URL` constructor accepts (`isValidUrl`). */
  predicate UrlFieldAccepted(value: string, isValidUrl: string -> bool) {
    value == "" || isValidUrl(value)
  }

  /** The red hint under the other-social URL: shown for a non-empty text
      that is not a URL. It never blocks the submit. */
  predicate OtherSocialUrlFlagged(o: OtherSocial, isValidUrl: string -> bool) {
    o.url != "" && !isValidUrl(o.url)
  }

  const BlankOtherSocial := OtherSocial("", "")

  /** `contactInfo.otherSocial || { platform: "", url: "" }`. */
  function InitialOtherSocial(saved: ContactInfo): (o: OtherSocial)
    ensures saved.otherSocial.Some? && saved.otherSocial.value.Some? ==> o == saved.otherSocial.value.value
    ensures !(saved.otherSocial.Some? && saved.otherSocial.value.Some?) ==> o == BlankOtherSocial
  {
    if saved.otherSocial.Some? && saved.otherSocial.value.Some? then saved.otherSocial.value.value
    else BlankOtherSocial
  }

  /** What is stored for the other profile: the pair when both parts are
      filled, null otherwise. */
  function StoredOtherSocial(o: OtherSocial): (r: Option<OtherSocial>)
    ensures r.Some? <==> o.platform != "" && o.url != ""
    ensures r.Some? ==> r.value == o
  {
    if o.platform != "" && o.url != "" then Some(o) else None
  }

  /** The `formData` of `onSubmit`. */
  function FormData(linkedin: string, portfolio: string, o: OtherSocial): (c: ContactInfo)
    ensures c.linkedin == Some(linkedin) && c.portfolio == Some(portfolio)
    ensures c.otherSocial == Some(StoredOtherSocial(o))
  {
    ContactInfo(Some(linkedin), Some(portfolio), Some(StoredOtherSocial(o)))
  }

  /** Opening the step again after a submit shows the same other profile
      when it was stored, and a blank one when it was not. */
  lemma SubmitThenReopen(linkedin: string, portfolio: string, o: OtherSocial)
    ensures o.platform != "" && o.url != "" ==> InitialOtherSocial(FormData(linkedin, portfolio, o)) == o
    ensures !(o.platform != "" && o.url != "") ==> InitialOtherSocial(FormData(linkedin, portfolio, o)) == BlankOtherSocial
  {
  }

  /** The hint is advice only: an other profile whose URL is flagged is
      still stored as typed once its platform is filled in. */
  lemma FlaggedOtherSocialStored(o: OtherSocial, isValidUrl: string -> bool)
    requires OtherSocialUrlFlagged(o, isValidUrl) && o.platform != ""
    ensures StoredOtherSocial(o) == Some(o)
    ensures !isValidUrl(o.url)
  {
  }

  /** Which part of the other profile an input edits. */
  datatype SocialField = Platform | Url

  /** The step's local state: the other social profile being edited. */
  class ContactInfoForm {
    var otherSocial: OtherSocial

    constructor (saved: ContactInfo)
      ensures otherSocial == InitialOtherSocial(saved)
    {
      otherSocial := InitialOtherSocial(saved);
    }

    /** `updateOtherSocial`. */
    method UpdateOtherSocial(field: SocialField, value: string)
      modifies this
      ensures field == Platform ==> otherSocial == old(otherSocial).(platform := value)
      ensures field == Url ==> otherSocial == old(otherSocial).(url := value)
    {
      match field
      case Platform => otherSocial := otherSocial.(platform := value);
      case Url => otherSocial := otherSocial.(url := value);
    }

    /** `handleSubmit(onSubmit)` with the two link inputs: when both pass
        their rule the contact bag is replaced, the two links are merged into
        `personalInfo` and the wizard moves to step 6; otherwise nothing
        changes. The other profile's URL is not checked. */
    method HandleSubmit(store: CvStore, linkedin: string, portfolio: string, isValidUrl: string -> bool)
      returns (submitted: bool)
      requires store.Valid()
      modifies store
      ensures store.Valid()
      ensures submitted <==> UrlFieldAccepted(linkedin, isValidUrl) && UrlFieldAccepted(portfolio, isValidUrl)
      ensures submitted ==> store.State() == old(store.State()).(
        contactInfo := FormData(linkedin, portfolio, otherSocial),
        personalInfo := old(store.personalInfo)["portfolio" := portfolio]["linkedin" := linkedin],
        currentStep := 6)
      ensures !submitted ==> store.State() == old(store.State())
    {
      submitted := UrlFieldAccepted(linkedin, isValidUrl) && UrlFieldAccepted(portfolio, isValidUrl);
      if submitted {
        store.UpdateContactInfo(FormData(linkedin, portfolio, otherSocial));
        store.UpdatePersonalInfo(map["portfolio" := portfolio, "linkedin" := linkedin]);
        assert store.personalInfo == old(store.personalInfo)["portfolio" := portfolio]["linkedin" := linkedin];
        store.SetCurrentStep(6);
      }
    }
  }
}
