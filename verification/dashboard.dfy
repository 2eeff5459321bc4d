/** The dashboard's top-level state (src/App.tsx): the two collections and
    the event currently open for editing, with the routing of the event
    form's submission to creation or update. */
module Dashboard {
  import opened Seqs
  import opened Model
  import opened Store
  import EventForm
  import Stats

  datatype State = State(events: seq<Event>, proposals: seq<Proposal>, editing: Option<Event>)

  /** The state at start-up: the seed collections, nothing being edited. */
  function Initial(): (s: State)
    ensures s.editing.None?
    ensures s.events == SeedEvents() && s.proposals == SeedProposals()
    ensures Distinct(EventIds(s.events)) && Distinct(ProposalIds(s.proposals))
  {
    State(SeedEvents(), SeedProposals(), None)
  }

  /** At start-up the cards show 3 events, 325 attendees, 2 published events,
      1 approved and 1 pending proposal. */
  lemma InitialSummary()
    ensures Stats.Summarize(Initial().events, Initial().proposals) == Stats.Summary(3, 325, 2, 1, 1)
  {
    Stats.SeedSummary();
  }

  /** `handleEdit`: the event becomes the one being edited. */
  function HandleEdit(s: State, e: Event): (r: State)
    ensures r.editing == Some(e) && r.events == s.events && r.proposals == s.proposals
  {
    s.(editing := Some(e))
  }

  /** `handleEventDialogClose`: editing stops; the collections are untouched. */
  function HandleEventDialogClose(s: State): (r: State)
    ensures r.editing.None? && r.events == s.events && r.proposals == s.proposals
  {
    s.(editing := None)
  }

  /** The event form's `onSubmit`: an update when an event is being edited
      (which then stops being edited), a creation otherwise. Proposals are
      untouched either way. */
  function SubmitEventForm(s: State, draft: EventDraft, newId: string): (r: State)
    ensures r.proposals == s.proposals && r.editing.None?
    ensures s.editing.Some? ==> r.events == UpdateEvent(s.events, s.editing, draft)
    ensures s.editing.None? ==> r.events == CreateEvent(s.events, draft, newId)
  {
    if s.editing.Some? then
      s.(events := UpdateEvent(s.events, s.editing, draft), editing := None)
    else
      s.(events := CreateEvent(s.events, draft, newId))
  }

  /** `handleSubmitProposal`: proposals grow by the submitted one; events and
      editing are untouched. */
  function HandleSubmitProposal(s: State, draft: ProposalDraft, newId: string, today: string): (r: State)
    ensures r.events == s.events && r.editing == s.editing
    ensures r.proposals == SubmitProposal(s.proposals, draft, newId, today)
  {
    s.(proposals := SubmitProposal(s.proposals, draft, newId, today))
  }

  /** Opening an event of the collection for editing and submitting the form
      without changing anything leaves the events as they were (ids distinct). */
  lemma EditWithoutChangesIsNoop(s: State, e: Event, newId: string)
    requires Distinct(EventIds(s.events)) && e in s.events
    ensures var form := EventForm.Load(EventForm.InitialForm(), Some(e));
      SubmitEventForm(HandleEdit(s, e), EventForm.Submit(form), newId).events == s.events
  {
  }

  /** Submitting a new form unchanged creates a draft event with no attendees
      and no proposal, in person with capacity 50. */
  lemma SubmitNewFormCreatesDraft(s: State, newId: string)
    requires s.editing.None?
    ensures var r := SubmitEventForm(s, EventForm.Submit(EventForm.InitialForm()), newId);
      && r.events[0].id == newId
      && r.events[0].attendees == Some(0)
      && r.events[0].status == Draft
      && r.events[0].proposalStatus == None
      && r.events[0].mode == InPerson && r.events[0].capacity == 50
      && r.events[1..] == s.events
  {
  }
}
