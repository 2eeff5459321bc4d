/** The proposal form (src/components/ProposalForm.tsx): nine intake fields
    and the draft it submits, whose notes fold five of them into one string. */
module ProposalForm {
  import opened Model

  datatype Form = Form(
    eventTitle: string,
    eventDate: string,
    expectedAttendees: int,
    venue: string,
    eventType: string,
    duration: string,
    budget: string,
    purpose: string,
    safetyMeasures: string,
    notes: string)

  /** A new form: 50 expected attendees and every text field empty. */
  function InitialForm(): (f: Form)
    ensures f.expectedAttendees == 50
    ensures f.eventTitle == f.eventDate == f.venue == f.eventType == f.duration == ""
    ensures f.budget == f.purpose == f.safetyMeasures == f.notes == ""
  {
    Form("", "", 50, "", "", "", "", "", "", "")
  }

  /** One `handleChange(field, value)` call. */
  datatype Edit =
    | SetEventTitle(s: string) | SetEventDate(s: string) | SetExpectedAttendees(n: int)
    | SetVenue(s: string) | SetEventType(s: string) | SetDuration(s: string)
    | SetBudget(s: string) | SetPurpose(s: string) | SetSafetyMeasures(s: string)
    | SetNotes(s: string)

  /** `handleChange`: the named field takes the value, nothing else changes. */
  function Change(f: Form, edit: Edit): (r: Form)
    ensures r.eventTitle == if edit.SetEventTitle? then edit.s else f.eventTitle
    ensures r.eventDate == if edit.SetEventDate? then edit.s else f.eventDate
    ensures r.expectedAttendees == if edit.SetExpectedAttendees? then edit.n else f.expectedAttendees
    ensures r.venue == if edit.SetVenue? then edit.s else f.venue
    ensures r.eventType == if edit.SetEventType? then edit.s else f.eventType
    ensures r.duration == if edit.SetDuration? then edit.s else f.duration
    ensures r.budget == if edit.SetBudget? then edit.s else f.budget
    ensures r.purpose == if edit.SetPurpose? then edit.s else f.purpose
    ensures r.safetyMeasures == if edit.SetSafetyMeasures? then edit.s else f.safetyMeasures
    ensures r.notes == if edit.SetNotes? then edit.s else f.notes
  {
    match edit
    case SetEventTitle(s) => f.(eventTitle := s)
    case SetEventDate(s) => f.(eventDate := s)
    case SetExpectedAttendees(n) => f.(expectedAttendees := n)
    case SetVenue(s) => f.(venue := s)
    case SetEventType(s) => f.(eventType := s)
    case SetDuration(s) => f.(duration := s)
    case SetBudget(s) => f.(budget := s)
    case SetPurpose(s) => f.(purpose := s)
    case SetSafetyMeasures(s) => f.(safetyMeasures := s)
    case SetNotes(s) => f.(notes := s)
  }

  /** The five labelled intake fields, separated by `" | "`. */
  function IntakeSummary(f: Form): string {
    "Type: " + f.eventType + " | Duration: " + f.duration + " | Budget: " + f.budget
      + " | Purpose: " + f.purpose + " | Safety: " + f.safetyMeasures
  }

  const AdditionalLabel := " | Additional: "

  /** The notes string: the intake summary, then an additional segment exactly
      when the extra notes are non-empty (no trimming: blanks count). */
  function BuildNotes(f: Form): (s: string)
    ensures IntakeSummary(f) <= s
    ensures f.notes == "" <==> |s| == |IntakeSummary(f)|
    ensures f.notes != "" ==> s[|IntakeSummary(f)|..] == AdditionalLabel + f.notes
  {
    IntakeSummary(f) + (if f.notes != "" then AdditionalLabel + f.notes else "")
  }

  /** Between two forms with the same intake fields, the notes strings agree
      exactly when the extra notes agree: the extra notes are recoverable. */
  lemma BuildNotesDeterminesExtra(f: Form, g: Form)
    requires f.eventType == g.eventType && f.duration == g.duration && f.budget == g.budget
    requires f.purpose == g.purpose && f.safetyMeasures == g.safetyMeasures
    ensures BuildNotes(f) == BuildNotes(g) <==> f.notes == g.notes
  {
    var base := IntakeSummary(f);
    assert IntakeSummary(g) == base;
    if BuildNotes(f) == BuildNotes(g) && f.notes != "" && g.notes != "" {
      assert AdditionalLabel + f.notes == BuildNotes(f)[|base|..] == AdditionalLabel + g.notes;
      assert f.notes == (AdditionalLabel + f.notes)[|AdditionalLabel|..];
      assert g.notes == (AdditionalLabel + g.notes)[|AdditionalLabel|..];
    }
  }

  /** A half-day workshop with no extra notes gives exactly the five labelled
      fields and no additional segment. The expected text is written as three
      adjacent literals, which spell the single string
      "Type: Workshop | Duration: Half day | Budget: $5,000 - $10,000 | Purpose: Test | Safety: None";
      the three lemmas below each join one segment, which keeps every string
      comparison short enough for the solver. */
  lemma BuildNotesExample()
    ensures BuildNotes(Form("", "", 50, "", "Workshop", "Half day", "$5,000 - $10,000", "Test", "None", ""))
      == "Type: Workshop | Duration: Half day" + " | Budget: $5,000 - $10,000" + " | Purpose: Test | Safety: None"
  {
    var f := Form("", "", 50, "", "Workshop", "Half day", "$5,000 - $10,000", "Test", "None", "");
    ExampleTypeAndDuration();
    ExampleBudget();
    ExamplePurposeAndSafety();
    assert BuildNotes(f) == ((("Type: " + "Workshop") + " | Duration: ") + "Half day")
      + (" | Budget: " + "$5,000 - $10,000")
      + ((((" | Purpose: " + "Test") + " | Safety: ") + "None"));
  }

  lemma ExampleTypeAndDuration()
    ensures (("Type: " + "Workshop") + " | Duration: ") + "Half day" == "Type: Workshop | Duration: Half day"
  {
  }

  lemma ExampleBudget()
    ensures " | Budget: " + "$5,000 - $10,000" == " | Budget: $5,000 - $10,000"
  {
  }

  lemma ExamplePurposeAndSafety()
    ensures ((" | Purpose: " + "Test") + " | Safety: ") + "None" == " | Purpose: Test | Safety: None"
  {
  }

  /** `handleSubmit`: title, date, attendance and venue pass through unchanged
      and the intake fields reach the draft only inside the notes. */
  function Submit(f: Form): (d: ProposalDraft)
    ensures d.eventTitle == f.eventTitle && d.eventDate == f.eventDate
    ensures d.expectedAttendees == f.expectedAttendees && d.venue == f.venue
    ensures d.notes == Some(BuildNotes(f))
  {
    ProposalDraft(f.eventTitle, f.eventDate, f.expectedAttendees, f.venue, Some(BuildNotes(f)))
  }
}
