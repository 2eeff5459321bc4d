/** The dashboard's summary cards (src/components/StatsCards.tsx): counts and
    sums recomputed from the current collections. */
module Stats {
  import opened Seqs
  import opened Model
  import opened Store

  /** `event.attendees || 0`: an absent attendance counts as zero. */
  function AttendeesOf(e: Event): (n: int)
    ensures e.attendees.None? ==> n == 0
    ensures e.attendees.Some? ==> n == e.attendees.value
  {
    match e.attendees
    case Some(n) => n
    case None => 0
  }

  /** The `reduce` over events adding each one's attendance. */
  function TotalAttendees(events: seq<Event>): (total: int)
    ensures (forall i :: 0 <= i < |events| ==> AttendeesOf(events[i]) >= 0) ==> total >= 0
  {
    if |events| == 0 then 0 else AttendeesOf(events[0]) + TotalAttendees(events[1..])
  }

  predicate IsPublished(e: Event) { e.status == Published }
  predicate IsApproved(p: Proposal) { p.status == Approved }
  predicate IsPending(p: Proposal) { p.status == Pending }

  /** The number of published events: zero exactly when none is published. */
  function PublishedCount(events: seq<Event>): (n: nat)
    ensures n <= |events|
    ensures n == 0 <==> forall i :: 0 <= i < |events| ==> events[i].status != Published
  {
    FilterEmpty(IsPublished, events);
    |Filter(IsPublished, events)|
  }

  /** The number of approved proposals: zero exactly when none is approved. */
  function ApprovedCount(proposals: seq<Proposal>): (n: nat)
    ensures n <= |proposals|
    ensures n == 0 <==> forall i :: 0 <= i < |proposals| ==> proposals[i].status != Approved
  {
    FilterEmpty(IsApproved, proposals);
    |Filter(IsApproved, proposals)|
  }

  /** The number of pending proposals: zero exactly when none is pending. */
  function PendingCount(proposals: seq<Proposal>): (n: nat)
    ensures n <= |proposals|
    ensures n == 0 <==> forall i :: 0 <= i < |proposals| ==> proposals[i].status != Pending
  {
    FilterEmpty(IsPending, proposals);
    |Filter(IsPending, proposals)|
  }

  /** The counts add up over concatenation; with the one-element case below
      each count is the number of elements carrying its status. */
  lemma CountsConcat(a: seq<Event>, b: seq<Event>, pa: seq<Proposal>, pb: seq<Proposal>)
    ensures PublishedCount(a + b) == PublishedCount(a) + PublishedCount(b)
    ensures ApprovedCount(pa + pb) == ApprovedCount(pa) + ApprovedCount(pb)
    ensures PendingCount(pa + pb) == PendingCount(pa) + PendingCount(pb)
  {
    FilterConcat(IsPublished, a, b);
    FilterConcat(IsApproved, pa, pb);
    FilterConcat(IsPending, pa, pb);
  }

  /** A single event or proposal counts one exactly when it has the status. */
  lemma CountsOne(e: Event, p: Proposal)
    ensures PublishedCount([e]) == if e.status == Published then 1 else 0
    ensures ApprovedCount([p]) == if p.status == Approved then 1 else 0
    ensures PendingCount([p]) == if p.status == Pending then 1 else 0
  {
  }

  /** The four figures the cards show, plus the pending count of the fourth card. */
  datatype Summary = Summary(
    totalEvents: nat,
    totalAttendees: int,
    publishedEvents: nat,
    approvedProposals: nat,
    pendingProposals: nat)

  /** The summary of the collections: the published events are among all
      events, and approved and pending proposals are disjoint among all proposals. */
  function Summarize(events: seq<Event>, proposals: seq<Proposal>): (s: Summary)
    ensures s.totalEvents == |events|
    ensures s.publishedEvents <= s.totalEvents
    ensures s.approvedProposals + s.pendingProposals <= |proposals|
  {
    ApprovedPendingBound(proposals);
    Summary(|events|, TotalAttendees(events), PublishedCount(events),
            ApprovedCount(proposals), PendingCount(proposals))
  }

  /** No proposal is counted both approved and pending. */
  lemma ApprovedPendingBound(proposals: seq<Proposal>)
    ensures ApprovedCount(proposals) + PendingCount(proposals) <= |proposals|
  {
    FilterDisjointBound(IsApproved, IsPending, proposals);
  }

  /** The attendance total is additive over concatenation. */
  lemma {:induction false} TotalAttendeesConcat(a: seq<Event>, b: seq<Event>)
    ensures TotalAttendees(a + b) == TotalAttendees(a) + TotalAttendees(b)
  {
    if |a| != 0 {
      assert (a + b)[0] == a[0];
      assert (a + b)[1..] == a[1..] + b;
      TotalAttendeesConcat(a[1..], b);
    } else {
      assert a + b == b;
    }
  }

  /** Two lists whose events agree position by position on attendance have the same total. */
  lemma {:induction false} SameAttendanceSameTotal(a: seq<Event>, b: seq<Event>)
    requires |a| == |b|
    requires forall i :: 0 <= i < |a| ==> a[i].attendees == b[i].attendees
    ensures TotalAttendees(a) == TotalAttendees(b)
  {
    if |a| != 0 {
      SameAttendanceSameTotal(a[1..], b[1..]);
    }
  }

  /** Creating an event adds an event with no attendees: the total is unchanged. */
  lemma CreateKeepsTotalAttendees(events: seq<Event>, draft: EventDraft, newId: string)
    ensures TotalAttendees(CreateEvent(events, draft, newId)) == TotalAttendees(events)
  {
  }

  /** Duplicating adds an event with no attendees: the total is unchanged. */
  lemma DuplicateKeepsTotalAttendees(events: seq<Event>, e: Event, newId: string)
    ensures TotalAttendees(DuplicateEvent(events, e, newId)) == TotalAttendees(events)
  {
  }

  /** Updating keeps every event's attendance, so the total is unchanged. */
  lemma UpdateKeepsTotalAttendees(events: seq<Event>, editing: Option<Event>, draft: EventDraft)
    ensures TotalAttendees(UpdateEvent(events, editing, draft)) == TotalAttendees(events)
  {
    SameAttendanceSameTotal(UpdateEvent(events, editing, draft), events);
  }

  /** Submitting a proposal adds exactly one pending proposal and no approved one. */
  lemma SubmitProposalCounts(proposals: seq<Proposal>, draft: ProposalDraft, newId: string, today: string)
    ensures PendingCount(SubmitProposal(proposals, draft, newId, today)) == PendingCount(proposals) + 1
    ensures ApprovedCount(SubmitProposal(proposals, draft, newId, today)) == ApprovedCount(proposals)
  {
  }

  /** The cards over the seed data read 3 events, 325 attendees, 2 published,
      1 approved and 1 pending. */
  lemma SeedSummary()
    ensures Summarize(SeedEvents(), SeedProposals()) == Summary(3, 325, 2, 1, 1)
  {
  }
}
