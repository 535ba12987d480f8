# cv-builder: a verified model of the resume wizard's store and steps

cv-builder is a seven-step resume wizard. Its steps are:

1. personal information;
2. career summary;
3. skills and experience;
4. education, with a certifications side view;
5. contact information;
6. AI enhancement;
7. review and PDF download.

Every step reads and writes one Redux store, the `cv` slice. This project models, in Dafny:

- **The store** (`CvSlice.CvStore`). It is a class with the slice's twelve fields. Each reducer is a method, and its contract states the whole new state. The AI merge `setGeneratedResume` is specified by a pure function, `CvSlice.Merge`, which follows JavaScript truthiness.
- **The step forms.** Their local state is a class per form (rows, uploaded file names, skill inputs). Their list edits are pure functions over sequences. Their submit handlers are methods that call the store's reducers in the source's order.
- **Navigation.** This covers the progress bar's active, completed and clickable rules, the click transition, and the page's choice of view from `(currentStep, currentSection)`.
- **The review preview's derived texts.** These are the placeholders, the address line, the certification date label and the download file name.
- **The `POST /api/generate-resume` handler.** This covers the key guard, the code-fence cleanup and the fallback to the request data.

Shared modules model the JavaScript built-ins the code relies on:

- `JsStrings`: `trim`, `split` on one character, `join` and `||`;
- `JsArrays`: `map`/`filter` by index, `filter` by value, `flatMap`, and `[...new Set(xs)]`;
- `DateCodec`: `Number` on digit strings, `new Date(y, m - 1, d)` and the "dd/MM/yyyy" formatter.

The item shapes in `Document` are the ones the components write. The slice's declared types differ from them.

Where the description of the system and the code disagree, the model follows the code:

- **`currentStep` is not confined to 1..7.** `setCurrentStep` stores any number, and the personal-information Back button stores 0. The page shows personal information for any such value.
- **A failed parse of the AI reply does not leave the document identical.** The handler returns the request data, and the client then merges that snapshot back. Personal info, title, summary and lists come out equal. `generatedResume` and `isAIEnhanced` still change (`CvSlice.MergeOfSnapshot`).

## Model

| member | source | states |
|---|---|---|
| CvSlice.CvStore.constructor | lib/cvSlice.ts:73-98 | the store starts at step 1, section "education", the eleven personal keys blank, every list empty, contactInfo `{}`, both texts "", no generated resume, not AI-enhanced |
| CvSlice.InitialStateWellFormed | lib/cvSlice.ts:76-88 | the initial personal info holds every one of the eleven personal keys |
| CvSlice.CvStore.SetCurrentStep | lib/cvSlice.ts:105-107 | any number is stored as the step, unchecked; every other field is unchanged |
| CvSlice.CvStore.SetCurrentSection | lib/cvSlice.ts:108-110 | only the section changes |
| CvSlice.CvStore.UpdatePersonalInfo | lib/cvSlice.ts:111-113 | personal info becomes the old map overridden by the payload's keys; nothing else changes |
| CvSlice.CvStore.UpdateEducation | lib/cvSlice.ts:114-116 | only the education list is replaced, wholesale |
| CvSlice.CvStore.UpdateWorkExperience | lib/cvSlice.ts:117-122 | only the work list is replaced |
| CvSlice.CvStore.UpdateSkills | lib/cvSlice.ts:123-125 | only the skills are replaced |
| CvSlice.CvStore.UpdateCertifications | lib/cvSlice.ts:126-131 | only the certifications are replaced |
| CvSlice.CvStore.UpdateContactInfo | lib/cvSlice.ts:132-134 | only the contact bag is replaced |
| CvSlice.CvStore.UpdateCareerSummary | lib/cvSlice.ts:135-137 | only the summary is replaced |
| CvSlice.CvStore.UpdateJobTitle | lib/cvSlice.ts:138-140 | only the job title is replaced |
| CvSlice.Merge | lib/cvSlice.ts:143-176 | the AI merge never touches step, section or contact info; it always sets the AI flag and records the serialised payload; it keeps every personal key present |
| CvSlice.MergePersonalInfo | lib/cvSlice.ts:146-148 | a present personal-info payload is merged shallowly: its keys win, every other old key keeps its value, no key is lost |
| CvSlice.MergeTruthiness | lib/cvSlice.ts:146-172 | a non-empty title or summary replaces the old one and a missing or empty one leaves it; a present list replaces the old one, even when empty, and a missing one leaves it; present personal info is the old map updated by the payload's map, missing personal info leaves it |
| CvSlice.MergeIdempotent | lib/cvSlice.ts:143-176 | merging the same payload twice gives the state of merging it once |
| CvSlice.MergeOfSnapshot | lib/cvSlice.ts:143-176 | merging a state's own data back changes only the generated resume and the AI flag |
| CvSlice.CvStore.SetGeneratedResume | lib/cvSlice.ts:143-176 | the guarded assignments leave the store in exactly the state `Merge` describes, with every personal key still present |
| CvSlice.CvStore.MergeProfile | lib/cvSlice.ts:146-156 | the personal-info, job-title and summary assignments give those three fields their merged values and change nothing else |
| CvSlice.CvStore.MergeSections | lib/cvSlice.ts:158-172 | the four list assignments give the lists their merged values and change nothing else |
| CvSlice.CvStore.ResetForm | lib/cvSlice.ts:178 | whatever the prior state, the store is exactly the initial state |
| Document.Lookup | components/steps/PersonalInfo.tsx:24-28 | a missing personal key reads as "", a present one as its value |
| JsStrings.Trim | components/steps/WorkExperience.tsx:96 | `trim` gives the slice of the input whose cut-off head and tail are all whitespace and whose first and last characters are not, empty exactly when the input is all whitespace |
| JsStrings.Split | components/steps/Education.tsx:28 | `split("/")` gives separator-free pieces that join back to the input |
| JsStrings.SplitJoin | components/Certifications.tsx:32 | splitting a join of separator-free pieces gives the pieces back |
| JsStrings.TrimIgnoresTrailingNewline | app/api/generate-resume/route.ts:86 | a trailing line feed does not change the trimmed text |
| JsArrays.MapAt | components/steps/WorkExperience.tsx:89-91 | an index-wise map changes the element at the index only, and nothing for an index out of range |
| JsArrays.RemoveAt | components/steps/Education.tsx:59 | filtering out an index drops exactly that element, or nothing when it is out of range |
| JsArrays.RemoveKeepingOne | components/steps/WorkExperience.tsx:82-86 | the remove-row rule: a single row stays; otherwise exactly the indexed row goes; a non-empty list stays non-empty |
| JsArrays.RemoveValue | components/steps/WorkExperience.tsx:155 | filtering out a value removes every occurrence and keeps all other elements with their counts |
| JsArrays.RemoveValueAppend | components/steps/WorkExperience.tsx:155 | filtering keeps order: filtering a concatenation is concatenating the filtered parts |
| JsArrays.RemoveValueOfAppended | components/steps/WorkExperience.tsx:141-156 | filtering out a value appended to a list without it gives the list back |
| JsArrays.Flatten | components/steps/WorkExperience.tsx:178 | the flattened list holds exactly the elements of the rows |
| JsArrays.FlattenAppend | components/steps/WorkExperience.tsx:178 | `flatMap` of no rows is empty, of one row is that row, and of two runs of rows is their flattenings in order |
| JsArrays.Dedupe | components/steps/WorkExperience.tsx:179 | `[...new Set(xs)]` has the same elements, no duplicates, in order of first occurrence |
| DateCodec.ToNumber | components/steps/Education.tsx:28 | `Number` on a piece is a number exactly when the piece is all digits |
| DateCodec.MakeDate | components/steps/Education.tsx:29 | in the model, `new Date(year, month - 1, day)` is valid when all three parts are numbers and invalid when any is NaN, with no upper bound on the date (see Left out); it keeps day and month, maps years 0 to 99 to 1900 + year and keeps every later year |
| DateCodec.FromSlashed | components/Certifications.tsx:32-33 | in the model, the result is valid when the text has at least three "/"-pieces and the first three are numeric, and invalid otherwise, with no upper bound on the date (see Left out); a valid result's day, month and year are the pieces' values, a year up to 99 read as 1900 + year |
| DateCodec.Format | components/steps/Education.tsx:93 | "dd/MM/yyyy" splits on "/" into the padded day, month and year, and is canonical for dates that fit the widths |
| DateCodec.EncodeDate | components/steps/Education.tsx:93-94 | the stored text is "" exactly when the date is null or invalid |
| DateCodec.FormatThenParse | components/Certifications.tsx:32-33 | splitting a formatted date and rebuilding it gives the same date, from the year 100 on |
| DateCodec.ParseThenFormat | components/Certifications.tsx:32-33 | every canonical text parses to a valid date that formats back to the same text |
| DateCodec.FormatHasSlash | components/steps/Education.tsx:27 | a formatted date contains the "/" the parsers branch on |
| WorkExperienceStep.ParseDateSafe | components/steps/WorkExperience.tsx:30-38 | no text or "" gives null, as does a text the date parser rejects; otherwise the parsed valid date |
| WorkExperienceStep.InitialExperiences | components/steps/WorkExperience.tsx:40-65 | one blank row when nothing is stored; otherwise one row per stored item, in order, position read as the title and responsibilities as the description, missing fields defaulted |
| WorkExperienceStep.FormatExperience | components/steps/WorkExperience.tsx:168-176 | a submitted row stores the title under position and the description under responsibilities, and no jobTitle or description key; each date is "" exactly when it is not a valid date |
| WorkExperienceStep.FormatExperiences | components/steps/WorkExperience.tsx:168-176 | one stored item per row, in order |
| WorkExperienceStep.SubmitThenReload | components/steps/WorkExperience.tsx:40-65 | submitting the rows and opening the step again gives the same rows when the parser reads the formatter's text back |
| WorkExperienceStep.ApplyEdit | components/steps/WorkExperience.tsx:88-93 | an input edit changes only its own field of the row |
| WorkExperienceStep.AddSkillToRow | components/steps/WorkExperience.tsx:97-101 | a row with fewer than five skills gains the trimmed skill at its end and nothing else changes; a row with five is unchanged; a row never grows past five skills |
| WorkExperienceStep.RemoveSkillFromRow | components/steps/WorkExperience.tsx:108-117 | exactly the skill at the index goes, nothing when the index is out of range, and the rest of the row is unchanged |
| WorkExperienceStep.AddThenRemoveSkill | components/steps/WorkExperience.tsx:95-117 | removing the skill just added, by its position, restores the row |
| WorkExperienceStep.AttachFiles | components/steps/WorkExperience.tsx:141-145 | uploaded names are appended to the achievements in order; nothing else in the row changes |
| WorkExperienceStep.DetachFile | components/steps/WorkExperience.tsx:153-158 | every achievement equal to the removed name goes, the others stay with their counts and in their order (the value filter, whose order is `JsArrays.RemoveValueAppend`); the rest of the row is unchanged |
| WorkExperienceStep.AttachThenDetach | components/steps/WorkExperience.tsx:131-161 | uploading a new name and removing it again restores the row |
| WorkExperienceStep.SkillLists | components/steps/WorkExperience.tsx:178 | the skills of each row, in row order |
| WorkExperienceStep.SubmittedSkills | components/steps/WorkExperience.tsx:178-179 | the submitted skills are exactly the skills of all rows, each once, in order of first appearance |
| WorkExperienceStep.WorkExperienceForm.constructor | components/steps/WorkExperience.tsx:51-68 | the form opens on the initial rows, no uploads and empty skill inputs |
| WorkExperienceStep.WorkExperienceForm.AddExperience | components/steps/WorkExperience.tsx:70-80 | one blank row is appended and the other rows are kept |
| WorkExperienceStep.WorkExperienceForm.RemoveExperience | components/steps/WorkExperience.tsx:82-86 | no-op with one row, otherwise exactly that row goes; at least one row always remains |
| WorkExperienceStep.WorkExperienceForm.UpdateExperience | components/steps/WorkExperience.tsx:88-93 | only the indexed row changes, and only in the edited field |
| WorkExperienceStep.WorkExperienceForm.AddSkill | components/steps/WorkExperience.tsx:95-106 | blank text changes nothing and keeps the input; otherwise the input of that row is cleared and only that row may gain the trimmed skill, never past five |
| WorkExperienceStep.WorkExperienceForm.RemoveSkill | components/steps/WorkExperience.tsx:108-117 | only row `expIndex` loses the skill at `skillIndex` |
| WorkExperienceStep.WorkExperienceForm.HandleSkillInputChange | components/steps/WorkExperience.tsx:119-121 | only that row's input text changes |
| WorkExperienceStep.WorkExperienceForm.HandleSkillKeyDown | components/steps/WorkExperience.tsx:123-129 | Tab or Enter adds the typed text (missing reads as "") as `AddSkill` does; other keys change nothing |
| WorkExperienceStep.WorkExperienceForm.HandleFileUpload | components/steps/WorkExperience.tsx:131-147 | the uploads are appended and their names go to the first row's achievements only |
| WorkExperienceStep.WorkExperienceForm.RemoveFile | components/steps/WorkExperience.tsx:149-161 | the upload leaves the list and its name leaves the first row's achievements only |
| WorkExperienceStep.WorkExperienceForm.Submit | components/steps/WorkExperience.tsx:166-181 | the store gets the formatted rows, the de-duplicated skills and step 4; nothing else changes |
| WorkExperienceStep.WorkExperienceForm.Skip | components/steps/WorkExperience.tsx:183-185 | skipping has exactly the effect of submitting |
| EducationStep.ParseDateString | components/steps/Education.tsx:24-37 | no text gives null; a "/" text is split and rebuilt; otherwise a "-" text goes to the native parser; any other text gives null |
| EducationStep.LoadDate | components/steps/Education.tsx:43-44 | a stored date is kept only when it parses to a valid date, else null |
| EducationStep.InitialEducations | components/steps/Education.tsx:41-48 | one blank row when nothing is stored; otherwise each stored row with its dates loaded and achievements defaulted to none |
| EducationStep.FormatEducation | components/steps/Education.tsx:91-96 | a saved row keeps its texts and achievements; each date is "" exactly when it is not a valid date |
| EducationStep.FormatEducations | components/steps/Education.tsx:91-96 | one saved item per row, in order |
| EducationStep.SavedDateReloads | components/steps/Education.tsx:24-48 | a saved date comes back through the "/" branch as the same date, never reaching the native parser |
| EducationStep.SaveThenReload | components/steps/Education.tsx:41-48 | saving the rows and opening the step again gives the same rows |
| EducationStep.ApplyEdit | components/steps/Education.tsx:63-65 | an input edit changes only its own field of the row |
| EducationStep.EducationForm.constructor | components/steps/Education.tsx:41-51 | the form opens on the initial rows and no uploads |
| EducationStep.EducationForm.AddEducation | components/steps/Education.tsx:53-55 | one blank row is appended |
| EducationStep.EducationForm.RemoveEducation | components/steps/Education.tsx:57-61 | no-op with one row, otherwise exactly that row goes |
| EducationStep.EducationForm.UpdateEducationItem | components/steps/Education.tsx:63-65 | only the indexed row changes, in the edited field |
| EducationStep.EducationForm.HandleFileUpload | components/steps/Education.tsx:67-79 | the uploads are appended and their names go to the first row's achievements only |
| EducationStep.EducationForm.RemoveFile | components/steps/Education.tsx:81-85 | the upload leaves the list; the first row's achievements become the value filter of the old ones, so every copy of the name goes and the others stay with their counts and in their order (`JsArrays.RemoveValueAppend`); the other rows are unchanged |
| EducationStep.EducationForm.SaveAndAdvance | components/steps/Education.tsx:90-99 | the store gets the formatted rows and the given step, nothing else |
| EducationStep.EducationForm.OnSubmit | components/steps/Education.tsx:101 | the store gets the formatted rows and step 5 |
| EducationStep.EducationForm.HandleCertificationsClick | components/steps/Education.tsx:102-111 | the store gets the formatted rows and section "certifications"; the step is unchanged |
| CertificationsStep.ParseDateString | components/Certifications.tsx:29-38 | no text gives null; any other text is split on "/" and kept only when valid |
| CertificationsStep.DateParsersAgree | components/Certifications.tsx:29-38 | the two views read a stored date alike unless it holds "-" and no "/" |
| CertificationsStep.InitialCertifications | components/Certifications.tsx:44-51 | one blank certification when nothing is stored; otherwise one row per stored item with both dates parsed |
| CertificationsStep.FormatCertification | components/Certifications.tsx:80-90 | a saved row keeps its other keys; each date is "" exactly when it is not a valid date |
| CertificationsStep.FormatCertifications | components/Certifications.tsx:80-90 | one saved item per row, in order |
| CertificationsStep.SavedDateReloads | components/Certifications.tsx:29-38 | a saved date parses back to the same date |
| CertificationsStep.SaveThenReload | components/Certifications.tsx:44-51 | saving and opening the view again gives the same rows |
| CertificationsStep.ApplyEdit | components/Certifications.tsx:68-77 | an input edit changes only its own field |
| CertificationsStep.CertificationsForm.constructor | components/Certifications.tsx:44-53 | the view opens on the initial rows |
| CertificationsStep.CertificationsForm.AddCertification | components/Certifications.tsx:55-60 | one blank row is appended |
| CertificationsStep.CertificationsForm.RemoveCertification | components/Certifications.tsx:62-66 | no-op with one row, otherwise exactly that row goes |
| CertificationsStep.CertificationsForm.UpdateCertificationItem | components/Certifications.tsx:68-77 | only the indexed row changes, in the edited field |
| CertificationsStep.CertificationsForm.SaveCertifications | components/Certifications.tsx:79-94 | the formatted rows replace the stored certifications and are returned; nothing else changes |
| CertificationsStep.CertificationsForm.OnSubmit | components/Certifications.tsx:96-101 | save, section "education", step 5 |
| CertificationsStep.CertificationsForm.HandleEducationClick | components/Certifications.tsx:103-106 | save and section "education"; the step is unchanged |
| Stepper.StepViews | components/Stepper.tsx:30-35 | seven steps numbered 1 to 7: active iff it is the current step, completed iff before it, clickable iff at most one past it |
| Stepper.OneActiveStep | components/Stepper.tsx:33-34 | at most one step is active, exactly one when the current step is on the bar, and none is both active and completed |
| Stepper.StepsInOrder | components/Stepper.tsx:33-35 | completed steps form a prefix, and every completed or active step and the next one are clickable |
| Stepper.ProgressWidth | components/Stepper.tsx:22 | the fill is 0 exactly at step 1 and 100 exactly at step 7 |
| Stepper.Click | components/Stepper.tsx:41 | a click on a step at most one past the current sets that step; a click further ahead changes nothing |
| ResumeBuilderPage.SelectView | app/resume-builder/page.tsx:19-57 | the certifications section wins over any step; otherwise steps 1 to 7 select their views in order and any other number selects personal information |
| ResumeBuilderPage.StepViewsDistinct | app/resume-builder/page.tsx:38-57 | each step view belongs to exactly one step, and only certifications needs the section |
| ResumeBuilderPage.FallbackView | app/resume-builder/page.tsx:54-55 | step 0 (Back) and steps past 7 show personal information, as does a fresh store |
| ResumeBuilderPage.EducationCertificationsLoop | components/steps/Education.tsx:102-111 | from education, on the states the handlers' contracts give for any form rows: the certifications button shows certifications, its education button comes back, and its submit shows contact information |
| ContactInfoStep.InitialOtherSocial | components/steps/ContactInfo.tsx:35-37 | the stored other profile, or a blank one |
| ContactInfoStep.StoredOtherSocial | components/steps/ContactInfo.tsx:46 | the other profile is kept exactly when both platform and URL are filled, otherwise null |
| ContactInfoStep.FormData | components/steps/ContactInfo.tsx:44-47 | the contact bag holds the two links and the normalised other profile |
| ContactInfoStep.SubmitThenReopen | components/steps/ContactInfo.tsx:35-47 | reopening after a submit shows the stored profile, or a blank one when it was null |
| ContactInfoStep.FlaggedOtherSocialStored | components/steps/ContactInfo.tsx:140-146 | a profile whose URL is flagged as invalid is still stored |
| ContactInfoStep.ContactInfoForm.constructor | components/steps/ContactInfo.tsx:35-37 | the form opens on the stored or blank other profile |
| ContactInfoStep.ContactInfoForm.UpdateOtherSocial | components/steps/ContactInfo.tsx:39-41 | exactly one part of the profile changes |
| ContactInfoStep.ContactInfoForm.HandleSubmit | components/steps/ContactInfo.tsx:43-52 | submits iff both links are empty or valid URLs; then the contact bag is replaced, the two links are merged into personal info with its other keys kept, and the step becomes 6; otherwise nothing changes |
| PersonalInfoStep.KeyOf | components/steps/PersonalInfo.tsx:31-34 | every input's name is one of the personal keys |
| PersonalInfoStep.InitialFields | components/steps/PersonalInfo.tsx:23-29 | each input starts from the saved value, "" when missing |
| PersonalInfoStep.Change | components/steps/PersonalInfo.tsx:31-34 | only the named input changes |
| PersonalInfoStep.Payload | components/steps/PersonalInfo.tsx:37 | the merged object has exactly the five form keys with the inputs' values |
| PersonalInfoStep.NextThenReopen | components/steps/PersonalInfo.tsx:23-39 | after Next, reopening shows what was entered, and personal keys outside the form keep their values |
| PersonalInfoStep.PersonalInfoForm.constructor | components/steps/PersonalInfo.tsx:23-29 | the form opens on the saved values |
| PersonalInfoStep.PersonalInfoForm.HandleChange | components/steps/PersonalInfo.tsx:31-34 | the fields become `Change` of the old ones |
| PersonalInfoStep.PersonalInfoForm.HandleNext | components/steps/PersonalInfo.tsx:36-39 | the five values are merged into personal info, the other keys are kept, and the step becomes 2 |
| PersonalInfoStep.PersonalInfoForm.HandleBack | components/steps/PersonalInfo.tsx:41-43 | the step becomes 0 and nothing else changes |
| CareerSummaryStep.DefaultValues | components/steps/CareerSummary.tsx:20-22 | the form defaults are the stored title and summary |
| CareerSummaryStep.OnSubmit | components/steps/CareerSummary.tsx:24-28 | summary, title and step 3 are stored, nothing else changes, and the form reopens on what was submitted |
| Review.OrText | components/steps/Review.tsx:33 | a present, non-empty value is shown, otherwise the placeholder |
| Review.NonEmpty | components/steps/Review.tsx:39 | `filter(Boolean)` keeps exactly the non-empty texts, each with its count |
| Review.NonEmptyAppend | components/steps/Review.tsx:39 | the filter keeps order: filtering a concatenation is concatenating the filtered parts |
| Review.JoinOfNonEmpty | components/steps/Review.tsx:38-41 | joining non-empty texts is empty only for no texts |
| Review.AddressLine | components/steps/Review.tsx:38-41 | the address line is never blank; it is the set parts joined by ", " when any is set, the placeholder when none is, and a single set part alone |
| Review.AddressAlone | components/steps/Review.tsx:38-41 | with only the address set, the line is the address |
| Review.DisplayDataOf | components/steps/Review.tsx:32-47 | each header text is the stored value or its fixed placeholder, and none is blank |
| Review.FreshStorePreview | components/steps/Review.tsx:32-47 | a fresh store previews "YOUR", "NAME" and "Your Address" |
| Review.DisplaySkills | components/steps/Review.tsx:49 | the stored skills, or the single hint "Add your skills" |
| Review.EducationEntryOf | components/steps/Review.tsx:187-193 | degree and institution fall back to placeholders, dates to "Start"/"End", and an empty major is not shown |
| Review.CertificationDates | components/steps/Review.tsx:210 | issue date, then " - " and the expiry when there is one; "Date" with no issue date |
| Review.CertificationEntryOf | components/steps/Review.tsx:208-214 | title, else name, else "Certification Name"; the date label; the organization placeholder; the item's own description, shown exactly when non-empty |
| Review.SavedCertificationDateLabel | components/steps/Review.tsx:210 | for a saved certification, the label is "Date" exactly when it had no valid issue date |
| Review.WorkEntryAsWritten | components/steps/Review.tsx:229-235 | the entry as written: `jobTitle`, else "Job Title"; the date range; the company placeholder; the item's own `description`, shown exactly when non-empty |
| Review.SubmittedWorkLosesTitle | components/steps/Review.tsx:229 | every submitted work row previews as "Job Title" with no description |
| Review.SubmittedWorkLosesTitleExample | components/steps/Review.tsx:229 | a row titled "Frontend Developer" previews as "Job Title" |
| Review.WorkEntryOf | components/steps/Review.tsx:229-235 | the corrected entry: jobTitle, else position, else "Job Title"; the company placeholder; the dates |
| Review.WorkEntryShowsTypedTitle | components/steps/Review.tsx:229-235 | with the correction, a submitted row shows its typed title and description, and AI items preview as before |
| Review.PreviewOf | components/steps/Review.tsx:180-235 | the preview as written: the derived header and skills and one entry per stored item of each section, work entries as `WorkEntryAsWritten` gives them; an empty section has no entries |
| Review.PreviewIntended | components/steps/Review.tsx:229-235 | the corrected preview equals the as-written one except that each work entry is `WorkEntryOf` |
| Review.PreviewIntendedAgrees | components/steps/Review.tsx:229-235 | when every work item carries a non-empty AI `jobTitle` and `description`, the corrected and as-written previews are the same |
| Review.Interpolated | components/steps/Review.tsx:280 | a missing name is interpolated as "undefined" |
| Review.DownloadFileName | components/steps/Review.tsx:280 | the name starts with "Resume_" and ends with ".pdf" |
| Review.DownloadFileNameOfStore | components/steps/Review.tsx:280 | in a well-formed store the name is "Resume_" + first name + "_" + last name + ".pdf", and "Resume__.pdf" for a fresh store |
| GenerateResumeRoute.StripToken | app/api/generate-resume/route.ts:84-85 | the global replace never lengthens the text and leaves text without the token's first character unchanged |
| GenerateResumeRoute.CleanText | app/api/generate-resume/route.ts:83-86 | the cleaned text is never longer than the reply |
| GenerateResumeRoute.NoBacktickOnlyTrimmed | app/api/generate-resume/route.ts:83-86 | a reply without backticks is only trimmed |
| GenerateResumeRoute.FencedCleansToBody | app/api/generate-resume/route.ts:83-86 | "```json\n" + body + "\n```" with a backtick-free body cleans to the trimmed body |
| GenerateResumeRoute.StripFenceLeavesNoFence | app/api/generate-resume/route.ts:85 | after the second replace no "```" remains, whatever the reply |
| GenerateResumeRoute.CleanTextFenceFree | app/api/generate-resume/route.ts:83-86 | the text handed to the JSON parser never contains "```" |
| GenerateResumeRoute.Post | app/api/generate-resume/route.ts:4-98 | a missing key answers 500 with the key message; an unreadable body or failed generation answers 500 with the failure message; otherwise 200 with the parsed reply, or the request data unchanged when the parse fails |

## Left out

- Persistence: `lib/store.ts` and `lib/providers.tsx` (redux-persist storage and rehydration) are not part of this model.
- `components/steps/AIResumeGeneration.tsx` is not part of this model: its fetch, timers and random progress ramp. Its effect on the store is `setGeneratedResume` followed by `setCurrentStep(7)`, both modelled.
- The text generator and `JSON.parse` are parameters of `GenerateResumeRoute.Post`. The prompt text is not modelled. A thrown error is a `None`. The environment variable is the `apiKey` parameter. Console logging is dropped.
- `JSON.stringify` of the AI payload is kept as the payload itself (`Serialized(p)`), with no text form.
- date-fns `parse` is a parameter of the work step. The native `new Date(text)` of the education step's "-" branch is a parameter too.
- DateCodec.MakeDate and DateCodec.FromSlashed: JavaScript's time range is not modelled. A date after 13 September 275760, or one a huge day or month pushes past it, is the Invalid Date in JavaScript, because the time value exceeds 8.64e15 ms. The model calls it valid. The education and certification date parsers and the save/reload lemmas inherit this.
- `new Date(y, m - 1, d)` is modelled without calendar rollover, so 31/02/2024 counts as a valid date as written. `Number` is modelled for digit strings only. Signs, decimals, exponents and surrounding whitespace, which `Number` also accepts, count as not a number.
- DateCodec.FormatThenParse: needs years from 100 on, because `new Date` maps years 0 to 99 into the 1900s.
- WorkExperienceStep.SubmitThenReload: takes as a hypothesis that the date-fns parser reads back its own "dd/MM/yyyy" output, since that parser is a parameter.
- The `new URL(...)` check is the `isValidUrl` parameter.
- File objects, object URLs and the megabyte size label: an upload is its file name.
- Stepper.ProgressWidth: computed on exact reals, not floating point.
- The PDF export (html2canvas, jsPDF and the image height) is not modelled, except for its file name.
- All markup, styling and animation. `components/LandingPage.tsx` and `components/NextButton.tsx` are not part of this model.
- react-hook-form internals: a submit is modelled by calling the submit handler with the field values. For contact info, the registered URL rules decide whether it is called.
- WorkExperienceStep.WorkExperienceForm.RemoveFile and EducationStep.EducationForm.RemoveFile: require an index of an existing upload, because the source reads `uploadedFiles[index].name` and would throw otherwise.
- Education, certification and work items are closed records with the fields listed in `Document`. The source spreads each item (`{...edu}`, `{...cert}`), which would carry along any further keys, such as extra ones in an AI reply; the model drops them.
- Stepper.Click: requires a step number from 1 to 7, the only numbers the bar offers.

## Findings

| source | as written | input that shows it | evidently intended | confidence | as-written member | corrected member |
|---|---|---|---|---|---|---|
| components/steps/Review.tsx:229-235 | the preview reads `exp.jobTitle` and `exp.description`, but the work step stores the title under `position` and the description under `responsibilities` (components/steps/WorkExperience.tsx:168-176) | a row typed as "Frontend Developer" / "Built the UI" and submitted previews as "Job Title" with no description | show the typed title and description, falling back to `position` and `responsibilities` when the AI keys are absent | not executed | Review.SubmittedWorkLosesTitle | Review.WorkEntryShowsTypedTitle |
