/** The work-experience step: a list of experience rows edited in place,
    per-row skill tags typed into a per-row input, achievement files that
    attach to the first row, and the submit that writes the rows and the
    combined skill list into the store. */
module WorkExperienceStep {
  import opened Wrappers
  import opened JsStrings
  import opened JsArrays
  import opened DateCodec
  import opened Document
  import opened CvSlice

  /** The most skills a row accepts from its input. */
  const MaxSkillsPerRow := 5

  /** An experience row as the form edits it; the dates are `Date` values
      (or null) until submit turns them into text. */
  datatype Experience = Experience(
    jobTitle: string,
    company: string,
    startDate: Option<JsDate>,
    endDate: Option<JsDate>,
    description: string,
    skills: seq<string>,
    achievements: seq<string>)

  const BlankExperience := Experience("", "", None, None, "", [], [])

  /** One edit the row's inputs make through `updateExperience`: a text box
      or a calendar selection (which may clear the date). */
  datatype ExperienceEdit =
    | SetJobTitle(text: string)
    | SetCompany(text: string)
    | SetStartDate(date: Option<JsDate>)
    | SetEndDate(date: Option<JsDate>)
    | SetDescription(text: string)

  /** `parseDateSafe`: no text (or "") gives null, and so does a text the
      date-fns parser `parse` rejects. */
  function ParseDateSafe(s: Option<string>, parse: string -> JsDate): (r: Option<JsDate>)
    ensures r.Some? ==> IsValidDate(r.value) && s.Some? && r.value == parse(s.value)
    ensures r.None? <==> s in {None, Some("")} || !IsValidDate(parse(s.value))
  {
    if s.None? || s.value == "" then None
    else if IsValidDate(parse(s.value)) then Some(parse(s.value))
    else None
  }

  /** One stored item as a row: `position` feeds the job title and
      `responsibilities` the description; missing texts and lists become
      empty. The AI's `jobTitle` and `description` keys are not read. */
  function LoadExperience(item: WorkItem, parse: string -> JsDate): Experience {
    Experience(item.position.GetOr(""), item.company.GetOr(""),
               ParseDateSafe(item.startDate, parse), ParseDateSafe(item.endDate, parse),
               item.responsibilities.GetOr(""), item.skills.GetOr([]), item.achievements.GetOr([]))
  }

  /** The rows the form starts with: the stored items, or one blank row when
      there are none. */
  function InitialExperiences(saved: seq<WorkItem>, parse: string -> JsDate): (rows: seq<Experience>)
    ensures |rows| >= 1
    ensures |saved| > 0 ==> (|rows| == |saved| &&
      forall i :: 0 <= i < |saved| ==> rows[i] == LoadExperience(saved[i], parse))
    ensures |saved| == 0 ==> rows == [BlankExperience]
  {
    if |saved| > 0 then seq(|saved|, i requires 0 <= i < |saved| => LoadExperience(saved[i], parse))
    else [BlankExperience]
  }

  /** One row as submit writes it: the job title under `position`, the
      description under `responsibilities`, valid dates as "dd/MM/yyyy" and
      anything else as "". */
  function FormatExperience(e: Experience): (w: WorkItem)
    ensures w.jobTitle.None? && w.description.None?
    ensures w.position == Some(e.jobTitle) && w.responsibilities == Some(e.description)
    ensures w.startDate.Some? && (w.startDate.value == "" <==> !(e.startDate.Some? && IsValidDate(e.startDate.value)))
    ensures w.endDate.Some? && (w.endDate.value == "" <==> !(e.endDate.Some? && IsValidDate(e.endDate.value)))
  {
    WorkItem(Some(e.company), Some(e.jobTitle), Some(EncodeDate(e.startDate)), Some(EncodeDate(e.endDate)),
             Some(e.description), Some(e.skills), Some(e.achievements), None, None)
  }

  function FormatExperiences(rows: seq<Experience>): (items: seq<WorkItem>)
    ensures |items| == |rows| && forall i :: 0 <= i < |rows| ==> items[i] == FormatExperience(rows[i])
  {
    seq(|rows|, i requires 0 <= i < |rows| => FormatExperience(rows[i]))
  }

  /** A row date survives a write and a read: it is null, or a valid date
      the date-fns parser reads back from its "dd/MM/yyyy" text. */
  predicate ReadsBack(d: Option<JsDate>, parse: string -> JsDate) {
    d.None? || (IsValidDate(d.value) && parse(Format(d.value.date)) == d.value)
  }

  /** Submitting the rows and opening the step again gives the same rows,
      provided the parser reads back what `format` wrote. */
  lemma {:induction false} SubmitThenReload(rows: seq<Experience>, parse: string -> JsDate)
    requires |rows| >= 1
    requires forall i :: 0 <= i < |rows| ==> ReadsBack(rows[i].startDate, parse) && ReadsBack(rows[i].endDate, parse)
    ensures InitialExperiences(FormatExperiences(rows), parse) == rows
  {
    var back := InitialExperiences(FormatExperiences(rows), parse);
    forall i | 0 <= i < |rows| ensures back[i] == rows[i] {
      var e := rows[i];
      assert ReadsBack(e.startDate, parse) && ReadsBack(e.endDate, parse);
      if e.startDate.Some? {
        assert Format(e.startDate.value.date) != "";
      }
      if e.endDate.Some? {
        assert Format(e.endDate.value.date) != "";
      }
    }
  }

  /** `{ ...exp, [field]: value }` for one of the row's inputs. */
  function ApplyEdit(e: Experience, edit: ExperienceEdit): (r: Experience)
    ensures r.skills == e.skills && r.achievements == e.achievements
    ensures edit.SetJobTitle? ==> r == e.(jobTitle := edit.text)
    ensures edit.SetCompany? ==> r == e.(company := edit.text)
    ensures edit.SetStartDate? ==> r == e.(startDate := edit.date)
    ensures edit.SetEndDate? ==> r == e.(endDate := edit.date)
    ensures edit.SetDescription? ==> r == e.(description := edit.text)
  {
    match edit
    case SetJobTitle(t) => e.(jobTitle := t)
    case SetCompany(t) => e.(company := t)
    case SetStartDate(d) => e.(startDate := d)
    case SetEndDate(d) => e.(endDate := d)
    case SetDescription(t) => e.(description := t)
  }

  /** `addSkill` on the rows: a non-blank text is trimmed and appended to
      the chosen row unless that row already holds five skills. */
  function AddSkillToRow(e: Experience, text: string): (r: Experience)
    ensures |e.skills| < MaxSkillsPerRow ==> r == e.(skills := e.skills + [Trim(text)])
    ensures |e.skills| >= MaxSkillsPerRow ==> r == e
    ensures |e.skills| <= MaxSkillsPerRow ==> |r.skills| <= MaxSkillsPerRow
  {
    if |e.skills| >= MaxSkillsPerRow then e else e.(skills := e.skills + [Trim(text)])
  }

  /** `removeSkill` on one row: the skill at the position goes, if there is one. */
  function RemoveSkillFromRow(e: Experience, skillIndex: int): (r: Experience)
    ensures 0 <= skillIndex < |e.skills| ==> r.skills == e.skills[..skillIndex] + e.skills[skillIndex + 1..]
    ensures !(0 <= skillIndex < |e.skills|) ==> r == e
    ensures r.(skills := e.skills) == e
  {
    e.(skills := RemoveAt(e.skills, skillIndex))
  }

  /** A skill that was added can be removed again by its position. */
  lemma AddThenRemoveSkill(e: Experience, text: string)
    requires |e.skills| < MaxSkillsPerRow
    ensures RemoveSkillFromRow(AddSkillToRow(e, text), |e.skills|) == e
  {
    var added := AddSkillToRow(e, text).skills;
    assert added[..|e.skills|] == e.skills;
  }

  /** The achievements of the first row gain the uploaded file names. */
  function AttachFiles(e: Experience, names: seq<string>): (r: Experience)
    ensures |r.achievements| == |e.achievements| + |names|
    ensures r.achievements[..|e.achievements|] == e.achievements
    ensures r.achievements[|e.achievements|..] == names
    ensures r.(achievements := e.achievements) == e
  {
    e.(achievements := e.achievements + names)
  }

  /** Every achievement equal to the removed file's name goes. */
  function DetachFile(e: Experience, name: string): (r: Experience)
    ensures name !in r.achievements
    ensures multiset(r.achievements) == multiset(e.achievements)[name := 0]
    ensures r.achievements == RemoveValue(e.achievements, name)
    ensures r.(achievements := e.achievements) == e
  {
    e.(achievements := RemoveValue(e.achievements, name))
  }

  /** Uploading a file whose name the row did not list and removing it again
      leaves the row as it was. */
  lemma AttachThenDetach(e: Experience, name: string)
    requires name !in e.achievements
    ensures DetachFile(AttachFiles(e, [name]), name) == e
  {
    var a := e.achievements;
    RemoveValueOfAppended(a, name);
  }

  /** Every row's skills, in row order. */
  function SkillLists(rows: seq<Experience>): (ss: seq<seq<string>>)
    ensures |ss| == |rows| && forall i :: 0 <= i < |rows| ==> ss[i] == rows[i].skills
  {
    seq(|rows|, i requires 0 <= i < |rows| => rows[i].skills)
  }

  /** `[...new Set(experiences.flatMap(exp => exp.skills))]`: every skill of
      every row, each once, in order of first appearance. */
  function SubmittedSkills(rows: seq<Experience>): (r: seq<string>)
    ensures forall x :: x in r <==> exists i :: 0 <= i < |rows| && x in rows[i].skills
    ensures forall x :: x in r <==> x in Flatten(SkillLists(rows))
    ensures NoDuplicates(r)
    ensures forall i, j :: 0 <= i < j < |r| ==>
      FirstIndex(Flatten(SkillLists(rows)), r[i]) < FirstIndex(Flatten(SkillLists(rows)), r[j])
  {
    var all := Flatten(SkillLists(rows));
    assert forall x :: x in all <==> exists i :: 0 <= i < |rows| && x in rows[i].skills by {
      forall x ensures x in all <==> exists i :: 0 <= i < |rows| && x in rows[i].skills {
        if x in all {
          var i :| 0 <= i < |SkillLists(rows)| && x in SkillLists(rows)[i];
          assert x in rows[i].skills;
        }
      }
    }
    Dedupe(all)
  }

  /** The form's local state: its rows, the names of the files it uploaded
      and the text in each row's skill input. */
  class WorkExperienceForm {
    var experiences: seq<Experience>
    var uploadedFiles: seq<string>
    var skillInputs: map<int, string>

    /** The form always shows at least one row. */
    ghost predicate Valid()
      reads this
    {
      |experiences| >= 1
    }

    /** Opening the step: rows from the store, no files, empty inputs. */
    constructor (saved: seq<WorkItem>, parse: string -> JsDate)
      ensures Valid()
      ensures experiences == InitialExperiences(saved, parse)
      ensures uploadedFiles == [] && skillInputs == map[]
    {
      experiences := InitialExperiences(saved, parse);
      uploadedFiles := [];
      skillInputs := map[];
    }

    /** `addExperience`: a blank row at the end. */
    method AddExperience()
      requires Valid()
      modifies this
      ensures Valid()
      ensures experiences == old(experiences) + [BlankExperience]
      ensures uploadedFiles == old(uploadedFiles) && skillInputs == old(skillInputs)
    {
      experiences := experiences + [BlankExperience];
    }

    /** `removeExperience`. */
    method RemoveExperience(index: int)
      requires Valid()
      modifies this
      ensures Valid()
      ensures experiences == RemoveKeepingOne(old(experiences), index)
      ensures uploadedFiles == old(uploadedFiles) && skillInputs == old(skillInputs)
    {
      if |experiences| > 1 {
        experiences := RemoveAt(experiences, index);
      }
    }

    /** `updateExperience`: the edited row changes, the others do not. */
    method UpdateExperience(index: int, edit: ExperienceEdit)
      requires Valid()
      modifies this
      ensures Valid()
      ensures |experiences| == |old(experiences)|
      ensures forall j :: 0 <= j < |experiences| ==>
        experiences[j] == if j == index then ApplyEdit(old(experiences)[j], edit) else old(experiences)[j]
      ensures uploadedFiles == old(uploadedFiles) && skillInputs == old(skillInputs)
    {
      experiences := MapAt(experiences, index, (e: Experience) => ApplyEdit(e, edit));
    }

    /** `addSkill`: a blank text changes nothing; otherwise the row gains the
        trimmed skill (below the cap) and its input is cleared. */
    method AddSkill(expIndex: int, text: string)
      requires Valid()
      modifies this
      ensures Valid()
      ensures Trim(text) == "" ==> experiences == old(experiences) && skillInputs == old(skillInputs)
      ensures Trim(text) != "" ==> skillInputs == old(skillInputs)[expIndex := ""]
      ensures Trim(text) != "" ==> (|experiences| == |old(experiences)| &&
        forall j :: 0 <= j < |experiences| ==>
          experiences[j] == if j == expIndex then AddSkillToRow(old(experiences)[j], text) else old(experiences)[j])
      ensures uploadedFiles == old(uploadedFiles)
    {
      if Trim(text) == "" {
        return;
      }
      experiences := MapAt(experiences, expIndex, (e: Experience) => AddSkillToRow(e, text));
      skillInputs := skillInputs[expIndex := ""];
    }

    /** `removeSkill`. */
    method RemoveSkill(expIndex: int, skillIndex: int)
      requires Valid()
      modifies this
      ensures Valid()
      ensures |experiences| == |old(experiences)|
      ensures forall j :: 0 <= j < |experiences| ==>
        experiences[j] == if j == expIndex then RemoveSkillFromRow(old(experiences)[j], skillIndex) else old(experiences)[j]
      ensures uploadedFiles == old(uploadedFiles) && skillInputs == old(skillInputs)
    {
      experiences := MapAt(experiences, expIndex, (e: Experience) => RemoveSkillFromRow(e, skillIndex));
    }

    /** `handleSkillInputChange`. */
    method HandleSkillInputChange(expIndex: int, value: string)
      requires Valid()
      modifies this
      ensures Valid()
      ensures skillInputs == old(skillInputs)[expIndex := value]
      ensures experiences == old(experiences) && uploadedFiles == old(uploadedFiles)
    {
      skillInputs := skillInputs[expIndex := value];
    }

    /** `handleSkillKeyDown`: Tab or Enter adds the row's typed text as a
        skill; any other key does nothing here. */
    method HandleSkillKeyDown(expIndex: int, key: string)
      requires Valid()
      modifies this
      ensures Valid()
      ensures var typed := if expIndex in old(skillInputs) then old(skillInputs)[expIndex] else "";
        if (key == "Tab" || key == "Enter") && Trim(typed) != "" then
          skillInputs == old(skillInputs)[expIndex := ""] && |experiences| == |old(experiences)| &&
          forall j :: 0 <= j < |experiences| ==>
            experiences[j] == if j == expIndex then AddSkillToRow(old(experiences)[j], typed) else old(experiences)[j]
        else
          experiences == old(experiences) && skillInputs == old(skillInputs)
      ensures uploadedFiles == old(uploadedFiles)
    {
      if key == "Tab" || key == "Enter" {
        var typed := if expIndex in skillInputs then skillInputs[expIndex] else "";
        if Trim(typed) != "" {
          AddSkill(expIndex, typed);
        }
      }
    }

    /** `handleFileUpload`: the files are listed and their names become
        achievements of the first row. */
    method HandleFileUpload(names: seq<string>)
      requires Valid()
      modifies this
      ensures Valid()
      ensures uploadedFiles == old(uploadedFiles) + names
      ensures experiences == [AttachFiles(old(experiences)[0], names)] + old(experiences)[1..]
      ensures skillInputs == old(skillInputs)
    {
      uploadedFiles := uploadedFiles + names;
      experiences := MapAt(experiences, 0, (e: Experience) => AttachFiles(e, names));
    }

    /** `removeFile`: the file leaves the list and its name leaves the first
        row's achievements. */
    method RemoveFile(index: int)
      requires Valid()
      requires 0 <= index < |uploadedFiles|
      modifies this
      ensures Valid()
      ensures uploadedFiles == old(uploadedFiles)[..index] + old(uploadedFiles)[index + 1..]
      ensures experiences == [DetachFile(old(experiences)[0], old(uploadedFiles)[index])] + old(experiences)[1..]
      ensures skillInputs == old(skillInputs)
    {
      var name := uploadedFiles[index];
      uploadedFiles := RemoveAt(uploadedFiles, index);
      experiences := MapAt(experiences, 0, (e: Experience) => DetachFile(e, name));
    }

    /** `onSubmit`: the rows go to `workExperience`, their combined skills to
        `skills`, and the wizard moves to step 4. */
    method Submit(store: CvStore)
      requires Valid() && store.Valid()
      modifies store
      ensures Valid() && store.Valid()
      ensures store.State() == old(store.State()).(
        workExperience := FormatExperiences(experiences),
        skills := SubmittedSkills(experiences),
        currentStep := 4)
    {
      store.UpdateWorkExperience(FormatExperiences(experiences));
      store.UpdateSkills(SubmittedSkills(experiences));
      store.SetCurrentStep(4);
    }

    /** `onSkip`: the same as submitting. */
    method Skip(store: CvStore)
      requires Valid() && store.Valid()
      modifies store
      ensures Valid() && store.Valid()
      ensures store.State() == old(store.State()).(
        workExperience := FormatExperiences(experiences),
        skills := SubmittedSkills(experiences),
        currentStep := 4)
    {
      Submit(store);
    }
  }
}
