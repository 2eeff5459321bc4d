/** The data shapes of the dashboard (src/App.tsx): events, proposals, the
    drafts the two forms hand to the stores, and the seed collections. */
module Model {
  import opened Seqs

  /** An optional field: TypeScript's `?:` and `| null` both become `None`. */
  datatype Option<T> = None | Some(value: T)

  datatype Mode = InPerson | Virtual | Hybrid
  datatype Status = Draft | Published | Cancelled

  /** The authority's verdict, shared by `Proposal.status` and `Event.proposalStatus`. */
  datatype Approval = Approved | Pending | Rejected

  datatype Event = Event(
    id: string,
    title: string,
    description: string,
    date: string,
    time: string,
    location: string,
    mode: Mode,
    capacity: int,
    category: string,
    tags: seq<string>,
    status: Status,
    attendees: Option<int>,
    proposalStatus: Option<Approval>)

  /** What the event form submits: an event without `id` and `attendees`. */
  datatype EventDraft = EventDraft(
    title: string,
    description: string,
    date: string,
    time: string,
    location: string,
    mode: Mode,
    capacity: int,
    category: string,
    tags: seq<string>,
    status: Status,
    proposalStatus: Option<Approval>)

  datatype Proposal = Proposal(
    id: string,
    eventTitle: string,
    organizerName: string,
    submittedDate: string,
    status: Approval,
    eventDate: string,
    expectedAttendees: int,
    venue: string,
    notes: Option<string>)

  /** What the proposal form submits: a proposal without `id`,
      `organizerName`, `submittedDate` and `status`. */
  datatype ProposalDraft = ProposalDraft(
    eventTitle: string,
    eventDate: string,
    expectedAttendees: int,
    venue: string,
    notes: Option<string>)

  /** The string value of a mode, as interpolated into generated text. */
  function ModeText(m: Mode): (t: string)
    ensures |t| == match m case InPerson => 9 case Virtual => 7 case Hybrid => 6
  {
    match m
    case InPerson => "in-person"
    case Virtual => "virtual"
    case Hybrid => "hybrid"
  }

  /** The editable part of an event. */
  function DraftOf(e: Event): EventDraft {
    EventDraft(e.title, e.description, e.date, e.time, e.location, e.mode,
               e.capacity, e.category, e.tags, e.status, e.proposalStatus)
  }

  /** The event `{ ...draft, id, attendees }`: every draft field, plus the given identity. */
  function WithIdentity(d: EventDraft, id: string, attendees: Option<int>): (e: Event)
    ensures DraftOf(e) == d && e.id == id && e.attendees == attendees
  {
    Event(id, d.title, d.description, d.date, d.time, d.location, d.mode,
          d.capacity, d.category, d.tags, d.status, attendees, d.proposalStatus)
  }

  /** An event is its editable part plus its identity. */
  lemma DraftRoundTrip(e: Event)
    ensures WithIdentity(DraftOf(e), e.id, e.attendees) == e
  {
  }

  function EventIds(es: seq<Event>): (ids: seq<string>)
    ensures |ids| == |es|
    ensures forall i :: 0 <= i < |es| ==> ids[i] == es[i].id
  {
    seq(|es|, i requires 0 <= i < |es| => es[i].id)
  }

  function ProposalIds(ps: seq<Proposal>): (ids: seq<string>)
    ensures |ids| == |ps|
    ensures forall i :: 0 <= i < |ps| ==> ids[i] == ps[i].id
  {
    seq(|ps|, i requires 0 <= i < |ps| => ps[i].id)
  }

  /** Prepending keeps ids pairwise distinct exactly when the new id is fresh. */
  lemma PrependIdsDistinct(e: Event, es: seq<Event>)
    ensures Distinct(EventIds([e] + es)) <==> e.id !in EventIds(es) && Distinct(EventIds(es))
  {
    var ids := EventIds([e] + es);
    var rest := EventIds(es);
    assert ids == [e.id] + rest;
    if e.id in rest {
      var j :| 0 <= j < |rest| && rest[j] == e.id;
      assert ids[0] == ids[j + 1];
    }
    if Distinct(ids) {
      forall i, j | 0 <= i < j < |rest| ensures rest[i] != rest[j] {
        assert ids[i + 1] != ids[j + 1];
      }
    }
  }

  /** `mockEvents`: the three events the dashboard starts with. */
  function SeedEvents(): (es: seq<Event>)
    ensures |es| == 3 && Distinct(EventIds(es))
  {
    [ Event("1", "Tech Conference 2025",
            "Annual technology conference featuring industry leaders",
            "2025-11-15", "09:00", "Convention Center, San Francisco", Hybrid, 500,
            "Technology", ["conference", "networking", "tech"], Published,
            Some(247), Some(Approved)),
      Event("2", "Web Development Workshop",
            "Hands-on workshop for learning modern web development",
            "2025-11-08", "14:00", "Online via Zoom", Virtual, 100,
            "Education", ["workshop", "coding", "web-dev"], Published,
            Some(78), Some(Approved)),
      Event("3", "Startup Pitch Night",
            "Evening event for startups to pitch their ideas to investors",
            "2025-11-20", "18:00", "Innovation Hub, Austin", InPerson, 150,
            "Business", ["startup", "pitch", "investment"], Draft,
            Some(0), Some(Pending)) ]
  }

  /** `mockProposals`: the two proposals the dashboard starts with. */
  function SeedProposals(): (ps: seq<Proposal>)
    ensures |ps| == 2 && Distinct(ProposalIds(ps))
  {
    [ Proposal("1", "Tech Conference 2025", "Sarah Johnson", "2025-10-01", Approved,
               "2025-11-15", 500, "Convention Center, San Francisco",
               Some("Annual event with confirmed sponsors")),
      Proposal("2", "Community Art Exhibition", "Sarah Johnson", "2025-10-25", Pending,
               "2025-12-05", 200, "City Art Gallery",
               Some("Showcasing local artists")) ]
  }
}
