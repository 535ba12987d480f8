/** The resume-builder page: which view the store's step and section select. */
module ResumeBuilderPage {
  import opened Document
  import opened CvSlice
  import EducationStep
  import CertificationsStep

  datatype View =
    | PersonalInfoView
    | CareerSummaryView
    | WorkExperienceView
    | EducationView
    | ContactInfoView
    | AIResumeGenerationView
    | ReviewView
    | CertificationsView

  /** The page's two-level choice: the certifications section wins over any
      step; otherwise steps 1 to 7 pick their views in order and any other
      number falls back to personal information. */
  function SelectView(step: int, section: string): (v: View)
    ensures v == CertificationsView <==> section == "certifications"
    ensures section != "certifications" && !(1 <= step <= 7) ==> v == PersonalInfoView
    ensures section != "certifications" && 1 <= step <= 7 ==> v == StepViews[step - 1]
  {
    if section == "certifications" then CertificationsView
    else match step
      case 1 => PersonalInfoView
      case 2 => CareerSummaryView
      case 3 => WorkExperienceView
      case 4 => EducationView
      case 5 => ContactInfoView
      case 6 => AIResumeGenerationView
      case 7 => ReviewView
      case _ => PersonalInfoView
  }

  /** The views of steps 1 to 7, in order. */
  const StepViews: seq<View> := [
    PersonalInfoView, CareerSummaryView, WorkExperienceView, EducationView,
    ContactInfoView, AIResumeGenerationView, ReviewView
  ]

  function CurrentView(s: CvState): View {
    SelectView(s.currentStep, s.currentSection)
  }

  /** Each step view is reached by exactly one step number, and every view
      other than certifications is reachable through the step alone. */
  lemma StepViewsDistinct()
    ensures forall i, j :: 0 <= i < j < |StepViews| ==> StepViews[i] != StepViews[j]
    ensures forall v :: v != CertificationsView ==> v in StepViews
    ensures CertificationsView !in StepViews
  {
  }

  /** The store starts on the personal-information view, and the step-1
      "Back" button (step 0) and any step past 7 show it too. */
  lemma FallbackView(s: CvState)
    requires s.currentSection != "certifications"
    requires s.currentStep <= 0 || s.currentStep > 7
    ensures CurrentView(s) == PersonalInfoView
    ensures CurrentView(InitialState) == PersonalInfoView
  {
  }

  /** The side loop of step 4, over the states the handlers' contracts
      produce: `EducationStep.EducationForm.HandleCertificationsClick` saves
      the rows and shows the certifications view without moving the step,
      `CertificationsStep.CertificationsForm.HandleEducationClick` saves the
      certifications and comes back to the education view, and
      `CertificationsStep.CertificationsForm.OnSubmit` goes on to contact
      information. */
  lemma EducationCertificationsLoop(s: CvState, educationRows: seq<EducationStep.EducationRow>,
                                    certificationRows: seq<CertificationsStep.CertificationRow>)
    requires CurrentView(s) == EducationView
    ensures var atCertifications := s.(education := EducationStep.FormatEducations(educationRows),
                                       currentSection := "certifications");
      var saved := CertificationsStep.FormatCertifications(certificationRows);
      && CurrentView(atCertifications) == CertificationsView
      && CurrentView(atCertifications.(certifications := saved, currentSection := "education")) == EducationView
      && CurrentView(atCertifications.(certifications := saved, currentSection := "education", currentStep := 5)) == ContactInfoView
  {
  }
}
