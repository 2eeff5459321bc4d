/** The event and proposal handlers of the dashboard (src/App.tsx): create,
    update, delete and duplicate over the event list, and proposal
    submission. Collections are newest first. Ids come from the clock in the
    source; here each fresh id is a parameter. */
module Store {
  import opened Seqs
  import opened Model

  /** `handleCreateEvent`: the draft, given a new id and no attendees, is
      prepended to the collection. */
  function CreateEvent(events: seq<Event>, draft: EventDraft, newId: string): (r: seq<Event>)
    ensures |r| == |events| + 1 && r[1..] == events
    ensures r[0].id == newId && r[0].attendees == Some(0) && DraftOf(r[0]) == draft
  {
    [WithIdentity(draft, newId, Some(0))] + events
  }

  /** `handleUpdateEvent`: with an event being edited, every event sharing its
      id takes all the draft's fields but keeps its own id and attendees;
      every other event is untouched. With none being edited, nothing changes. */
  function UpdateEvent(events: seq<Event>, editing: Option<Event>, draft: EventDraft): (r: seq<Event>)
    ensures |r| == |events|
    ensures editing.None? ==> r == events
    ensures editing.Some? ==> forall i :: 0 <= i < |events| && events[i].id != editing.value.id ==>
      r[i] == events[i]
    ensures editing.Some? ==> forall i :: 0 <= i < |events| && events[i].id == editing.value.id ==>
      && r[i].id == events[i].id
      && r[i].attendees == events[i].attendees
      && DraftOf(r[i]) == draft
  {
    match editing
    case None => events
    case Some(target) =>
      seq(|events|, i requires 0 <= i < |events| =>
        if events[i].id == target.id
        then WithIdentity(draft, events[i].id, events[i].attendees)
        else events[i])
  }

  /** The filter predicate of `handleDelete`: keep events whose id differs. */
  function KeepUnless(id: string): Event -> bool {
    (e: Event) => e.id != id
  }

  /** `handleDelete`: no event with the id remains, and every other event is kept. */
  function DeleteEvent(events: seq<Event>, id: string): (r: seq<Event>)
    ensures |r| <= |events|
    ensures forall i :: 0 <= i < |r| ==> r[i].id != id && r[i] in events
    ensures forall i :: 0 <= i < |events| && events[i].id != id ==> events[i] in r
  {
    Filter(KeepUnless(id), events)
  }

  /** `handleDuplicate`: a copy of `e` under a new id, titled with a copy
      marker, back in draft with no attendees and no proposal, is prepended. */
  function DuplicateEvent(events: seq<Event>, e: Event, newId: string): (r: seq<Event>)
    ensures |r| == |events| + 1 && r[1..] == events
    ensures var c := r[0];
      && c.id == newId
      && c.title == e.title + " (Copy)"
      && c.status == Draft
      && c.attendees == Some(0)
      && c.proposalStatus == None
      && c.description == e.description && c.date == e.date && c.time == e.time
      && c.location == e.location && c.mode == e.mode && c.capacity == e.capacity
      && c.category == e.category && c.tags == e.tags
  {
    var copy := e.(id := newId, title := e.title + " (Copy)", status := Draft,
                   attendees := Some(0), proposalStatus := None);
    [copy] + events
  }

  /** The one signed-in organizer every proposal is filed under. */
  const Organizer := "Sarah Johnson"

  /** `handleSubmitProposal`: the draft, filed by the organizer on `today`
      under a new id and pending review, is prepended. */
  function SubmitProposal(proposals: seq<Proposal>, draft: ProposalDraft, newId: string, today: string): (r: seq<Proposal>)
    ensures |r| == |proposals| + 1 && r[1..] == proposals
    ensures var p := r[0];
      && p.id == newId
      && p.organizerName == Organizer
      && p.submittedDate == today
      && p.status == Pending
      && p.eventTitle == draft.eventTitle && p.eventDate == draft.eventDate
      && p.expectedAttendees == draft.expectedAttendees && p.venue == draft.venue
      && p.notes == draft.notes
  {
    [Proposal(newId, draft.eventTitle, Organizer, today, Pending, draft.eventDate,
              draft.expectedAttendees, draft.venue, draft.notes)] + proposals
  }

  // Identity invariants

  /** Creating keeps ids pairwise distinct exactly when the new id is fresh. */
  lemma CreateKeepsIdsDistinct(events: seq<Event>, draft: EventDraft, newId: string)
    ensures Distinct(EventIds(CreateEvent(events, draft, newId)))
        <==> Distinct(EventIds(events)) && newId !in EventIds(events)
  {
  }

  /** Duplicating keeps ids pairwise distinct exactly when the new id is fresh. */
  lemma DuplicateKeepsIdsDistinct(events: seq<Event>, e: Event, newId: string)
    ensures Distinct(EventIds(DuplicateEvent(events, e, newId)))
        <==> Distinct(EventIds(events)) && newId !in EventIds(events)
  {
  }

  /** Updating never changes any id, in any position. */
  lemma UpdateKeepsIds(events: seq<Event>, editing: Option<Event>, draft: EventDraft)
    ensures EventIds(UpdateEvent(events, editing, draft)) == EventIds(events)
  {
  }

  /** Updating with an id no event carries changes nothing. */
  lemma UpdateUnknownIsNoop(events: seq<Event>, target: Event, draft: EventDraft)
    requires target.id !in EventIds(events)
    ensures UpdateEvent(events, Some(target), draft) == events
  {
  }

  /** Submitting the unchanged fields of an event in the collection (ids
      distinct) leaves the collection as it was. */
  lemma UpdateWithOwnDraftIsNoop(events: seq<Event>, e: Event)
    requires Distinct(EventIds(events)) && e in events
    ensures UpdateEvent(events, Some(e), DraftOf(e)) == events
  {
  }

  /** Deleting works piecewise, so the kept events stay in their relative order. */
  lemma DeleteKeepsOrder(a: seq<Event>, b: seq<Event>, id: string)
    ensures DeleteEvent(a + b, id) == DeleteEvent(a, id) + DeleteEvent(b, id)
    ensures forall e :: DeleteEvent([e], id) == if e.id == id then [] else [e]
  {
    FilterConcat(KeepUnless(id), a, b);
  }

  /** Each event with another id keeps its number of occurrences. */
  lemma DeleteKeepsMultiplicity(events: seq<Event>, id: string, e: Event)
    ensures multiset(DeleteEvent(events, id))[e] == if e.id == id then 0 else multiset(events)[e]
  {
    FilterMultiplicity(KeepUnless(id), events, e);
  }

  /** Deleting twice is deleting once. */
  lemma DeleteIdempotent(events: seq<Event>, id: string)
    ensures DeleteEvent(DeleteEvent(events, id), id) == DeleteEvent(events, id)
  {
    FilterIdempotent(KeepUnless(id), events);
  }

  /** Deleting an id no event carries changes nothing. */
  lemma DeleteUnknownIsNoop(events: seq<Event>, id: string)
    requires id !in EventIds(events)
    ensures DeleteEvent(events, id) == events
  {
    forall e | e in events ensures KeepUnless(id)(e) {
      var i :| 0 <= i < |events| && events[i] == e;
      assert EventIds(events)[i] == e.id;
    }
    FilterKeepsAll(KeepUnless(id), events);
  }

  /** Deleting keeps ids pairwise distinct. */
  lemma DeleteKeepsIdsDistinct(events: seq<Event>, id: string)
    requires Distinct(EventIds(events))
    ensures Distinct(EventIds(DeleteEvent(events, id)))
  {
    DeleteKeepsIdsDistinctRec(events, id);
  }

  lemma {:induction false} DeleteKeepsIdsDistinctRec(events: seq<Event>, id: string)
    requires Distinct(EventIds(events))
    ensures Distinct(EventIds(DeleteEvent(events, id)))
    decreases |events|
  {
    if |events| != 0 {
      var e := events[0];
      var tail := events[1..];
      assert events == [e] + tail;
      PrependIdsDistinct(e, tail);
      DeleteKeepsIdsDistinctRec(tail, id);
      var rt := DeleteEvent(tail, id);
      if KeepUnless(id)(e) {
        assert DeleteEvent(events, id) == [e] + rt;
        NotInDeleted(tail, id, e.id);
        PrependIdsDistinct(e, rt);
      } else {
        assert DeleteEvent(events, id) == rt;
      }
    }
  }

  /** An id absent from a collection is absent after a deletion. */
  lemma NotInDeleted(events: seq<Event>, id: string, x: string)
    requires x !in EventIds(events)
    ensures x !in EventIds(DeleteEvent(events, id))
  {
  }
}
