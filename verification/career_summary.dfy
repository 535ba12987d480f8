/** Step 2, career overview: a job title and a summary, saved on submit. */
module CareerSummaryStep {
  import opened Document
  import opened CvSlice

  /** The form's values (`FormValues`). */
  datatype CareerForm = CareerForm(jobTitle: string, summary: string)

  /** The form's defaults: the stored job title and summary. */
  function DefaultValues(s: CvState): (f: CareerForm)
    ensures f.jobTitle == s.jobTitle && f.summary == s.careerSummary
  {
    CareerForm(s.jobTitle, s.careerSummary)
  }

  /** `onSubmit`: the summary, then the job title, then step 3. */
  method OnSubmit(store: CvStore, data: CareerForm)
    requires store.Valid()
    modifies store
    ensures store.Valid()
    ensures store.State() == old(store.State()).(careerSummary := data.summary, jobTitle := data.jobTitle, currentStep := 3)
    ensures DefaultValues(store.State()) == data
  {
    store.UpdateCareerSummary(data.summary);
    store.UpdateJobTitle(data.jobTitle);
    store.SetCurrentStep(3);
  }
}
