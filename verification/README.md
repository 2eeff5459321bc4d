# Event organizer dashboard — a Dafny model of its state transitions

The dashboard is a single-page client. Organizers use it to keep a list of
events and to file approval proposals with an authority. All of its state
lives in memory and starts from fixed seed data. Nearly all of the code is
markup. This project models the small layer of pure state transitions under
that markup:

- **Event store and proposal store** (`src/App.tsx`), modules `Model`,
  `Store` and `Dashboard`:
  - the `Event`/`Proposal` shapes and the seed collections;
  - create, update, delete and duplicate over the newest-first event list;
  - proposal submission;
  - the "event being edited" state, which routes a form submission to update
    or to create.
- **Event form** (`src/components/EventForm.tsx`), module `EventForm`:
  - the default fields and loading an event for editing;
  - field edits;
  - the tag editor (trim, skip blank input, skip duplicates, remove every
    occurrence);
  - the description generator, which picks a template by category, falls
    back when the title is empty, and interpolates the mode;
  - the fixed "enhance" block;
  - applying or dismissing the staged suggestion;
  - the submitted draft.
- **Proposal form** (`src/components/ProposalForm.tsx`), module
  `ProposalForm`. Five intake fields fold into one notes string. A
  ` | Additional: …` segment is added only when the extra notes are non-empty.
- **Summary cards** (`src/components/StatsCards.tsx`), module `Stats`:
  - total events;
  - total attendees, where a missing attendance counts as 0;
  - published events;
  - approved proposals and pending proposals.
- **Notification preferences** (`src/components/SettingsPanel.tsx`), module
  `Settings`: six switches, toggling one key, and the save flag.

Two shared modules support these:

- `Seqs` holds one generic `Filter`, the model of `Array.prototype.filter`.
  Deleting events, removing tags and the three counts all use it. `Seqs` also
  holds the lemmas about `Filter` (piecewise over concatenation, idempotence,
  multiplicity, disjoint bound) and the `Distinct` predicate.
- `Text` models JavaScript's `String.prototype.trim`. It uses the exact
  ECMAScript WhiteSpace and LineTerminator code points.

Modelling choices:

- Optional fields are `Option`. A TypeScript `?:` field and a `| null` field
  both become `None`. So the form's `event.proposalStatus || null` is the
  identity.
- `category` is a plain string, as in the source.
- The source takes new ids from `Date.now()` and the submission date from
  `new Date()`. Here both are parameters.
- `CreateEvent` and `DuplicateEvent` do not demand a fresh id, because the
  source does not check for one. Instead, `CreateKeepsIdsDistinct` and
  `DuplicateKeepsIdsDistinct` prove that ids stay pairwise distinct *exactly
  when* the new id is fresh.
- `UpdateEvent` maps over every event whose id equals the edited event's id,
  as the source does. With distinct ids that is one event. Submitting an
  edited event unchanged leaves the collection as it was
  (`UpdateWithOwnDraftIsNoop`, `Dashboard.EditWithoutChangesIsNoop`).

## Model

| member | source | states |
|---|---|---|
| Model.WithIdentity | src/App.tsx:127-132 | `{ ...draft, id, attendees }` has every draft field and the given id and attendance |
| Model.PrependIdsDistinct | src/App.tsx:133 | prepending an event keeps ids pairwise distinct iff its id is fresh and the old ids were distinct |
| Model.SeedEvents | src/App.tsx:44-90 | the three seed events, with pairwise distinct ids |
| Model.SeedProposals | src/App.tsx:92-115 | the two seed proposals, with pairwise distinct ids |
| Model.ModeText | src/App.tsx:23 | the three mode strings, of pairwise different lengths |
| Store.CreateEvent | src/App.tsx:127-135 | the new event heads the list and the old list is the unchanged tail; it has the new id, attendance 0 and every draft field |
| Store.UpdateEvent | src/App.tsx:137-147 | length is kept; events with another id are unchanged; events with the edited id take every draft field but keep their id and attendance; with nothing being edited the list is unchanged |
| Store.DeleteEvent | src/App.tsx:154-156 | no event with the id remains, every remaining event was there before, every event with another id is kept |
| Store.DuplicateEvent | src/App.tsx:158-168 | the copy heads the list with the new id, title plus " (Copy)", draft status, attendance 0 and no proposal; description, date, time, location, mode, capacity, category and tags are the original's |
| Store.SubmitProposal | src/App.tsx:175-185 | the proposal heads the list with the new id, organizer "Sarah Johnson", the given date, pending status, and title, date, attendance, venue and notes from the draft |
| Store.CreateKeepsIdsDistinct | src/App.tsx:127-133 | after a creation ids are pairwise distinct iff they were before and the new id was fresh |
| Store.DuplicateKeepsIdsDistinct | src/App.tsx:158-167 | after a duplication ids are pairwise distinct iff they were before and the new id was fresh |
| Store.UpdateKeepsIds | src/App.tsx:139-143 | an update leaves the id at every position unchanged |
| Store.UpdateUnknownIsNoop | src/App.tsx:139-143 | updating with an id no event carries leaves the list unchanged |
| Store.UpdateWithOwnDraftIsNoop | src/App.tsx:139-143 | with distinct ids, updating an event of the list with its own editable fields leaves the list unchanged |
| Store.DeleteKeepsOrder | src/App.tsx:155 | deletion works piecewise over concatenation and keeps or drops a single event by its id, so the kept events stay in order |
| Store.DeleteKeepsMultiplicity | src/App.tsx:155 | an event with another id occurs as often after deletion as before; one with the id does not occur |
| Store.DeleteIdempotent | src/App.tsx:155 | deleting twice equals deleting once |
| Store.DeleteUnknownIsNoop | src/App.tsx:155 | deleting an id no event carries leaves the list unchanged |
| Store.DeleteKeepsIdsDistinct | src/App.tsx:155 | deletion keeps ids pairwise distinct |
| Dashboard.Initial | src/App.tsx:118-124 | start-up state: exactly the seed events and proposals, with distinct ids, and nothing being edited |
| Dashboard.InitialSummary | src/App.tsx:118-119 | at start-up the cards show 3 events, 325 attendees, 2 published events, 1 approved and 1 pending proposal |
| Dashboard.HandleEdit | src/App.tsx:149-152 | the event becomes the one being edited, with the lists untouched |
| Dashboard.HandleEventDialogClose | src/App.tsx:170-173 | editing stops, with the lists untouched |
| Dashboard.SubmitEventForm | src/App.tsx:361 | a submission updates when an event is being edited and creates otherwise; afterwards nothing is being edited and proposals are untouched |
| Dashboard.HandleSubmitProposal | src/App.tsx:175-185 | only the proposal list changes, by one submission |
| Dashboard.EditWithoutChangesIsNoop | src/App.tsx:137-143 | opening an event of the list for editing and submitting the loaded form unchanged leaves the events as they were |
| Dashboard.SubmitNewFormCreatesDraft | src/components/EventForm.tsx:38-51 | submitting a new form unchanged creates an in-person draft event with capacity 50, attendance 0 and no proposal, ahead of the old list |
| EventForm.Submit | src/components/EventForm.tsx:136-142 | the draft carries every form field and the tags, and no id or attendance |
| EventForm.InitialForm | src/components/EventForm.tsx:38-52 | empty text fields and category, in person, capacity 50, draft, no proposal status, no tags, empty tag box and no suggestion |
| EventForm.Load | src/components/EventForm.tsx:56-72 | loading an event makes the form submit exactly that event's editable fields and tags; with no event the form is unchanged |
| EventForm.Change | src/components/EventForm.tsx:74-76 | the named field takes the value and every other field, the tags and the suggestion are unchanged |
| EventForm.TypeTag | src/components/EventForm.tsx:369 | typing replaces the tag box only |
| EventForm.KeyDown | src/components/EventForm.tsx:78-86 | Enter with non-blank input clears the box and appends the trimmed tag unless already present (the old tags stay a prefix; the new tags are the old ones plus the tag); any other key or blank input changes nothing |
| EventForm.KeyDownKeepsTagsDistinct | src/components/EventForm.tsx:81-83 | committing a tag keeps the tags free of duplicates |
| EventForm.RemoveTag | src/components/EventForm.tsx:88-90 | the tag no longer occurs, every other tag is present iff it was before, and removing an absent tag changes nothing |
| EventForm.RemoveTagKeepsOrder | src/components/EventForm.tsx:89 | removal works piecewise over concatenation, so the remaining tags keep their order |
| EventForm.AddThenRemoveRestores | src/components/EventForm.tsx:78-90 | committing a new tag and then removing it restores the tag list |
| EventForm.TemplateFor | src/components/EventForm.tsx:96-108 | Technology, Business, Education and Arts & Culture each select their own template, each iff the category is that name; the default template is chosen iff the category is none of the four, the empty category included |
| EventForm.Render | src/components/EventForm.tsx:97-105 | a text is exactly the template's lead, the title (or the fallback when the title is empty), the template's middle, the mode and the template's tail, in that order |
| EventForm.Generate | src/components/EventForm.tsx:97-108 | the category's template is filled with the title (or its fallback), its middle, the mode's wording and its tail |
| EventForm.GenerateEmptyTitle | src/components/EventForm.tsx:97-108 | an empty title generates the same text as the template's fallback phrase |
| EventForm.GenerateTitleInjective | src/components/EventForm.tsx:97-108 | distinct non-empty titles generate distinct texts |
| EventForm.GenerateModeInjective | src/components/EventForm.tsx:97-108 | distinct modes generate distinct texts |
| EventForm.GenerateDescription | src/components/EventForm.tsx:92-112 | generation stages the generated text and changes no field |
| EventForm.EnhanceDescription | src/components/EventForm.tsx:119-134 | with an empty description it behaves as generation; otherwise the suggestion strictly extends the description with the fixed block |
| EventForm.ApplySuggestion | src/components/EventForm.tsx:114-117 | the description becomes the suggestion, the suggestion is cleared, and nothing else changes |
| EventForm.DismissSuggestion | src/components/EventForm.tsx:243 | only the suggestion is cleared |
| EventForm.ApplyEnhancedKeepsPrefix | src/components/EventForm.tsx:114-133 | after enhancing and applying, the old description is a proper prefix and the submitted draft differs only in its description |
| Text.Trim | src/components/EventForm.tsx:79 | the result is the input less its leading and trailing JavaScript whitespace; it is empty iff the input is all whitespace, and otherwise starts and ends with non-whitespace |
| Text.TrimIdempotent | src/components/EventForm.tsx:81-82 | trimming an already trimmed tag changes nothing |
| ProposalForm.InitialForm | src/components/ProposalForm.tsx:23-34 | 50 expected attendees and every text field empty |
| ProposalForm.Change | src/components/ProposalForm.tsx:36-38 | the named field takes the value and every other field is unchanged |
| ProposalForm.BuildNotes | src/components/ProposalForm.tsx:47 | the five labelled fields come first; the string is longer than that iff the extra notes are non-empty, and the rest is then " \| Additional: " and the notes |
| ProposalForm.BuildNotesDeterminesExtra | src/components/ProposalForm.tsx:47 | with the same intake fields, two notes strings are equal iff the extra notes are equal |
| ProposalForm.BuildNotesExample | src/components/ProposalForm.tsx:47 | the workshop example gives exactly "Type: Workshop \| Duration: Half day \| Budget: $5,000 - $10,000 \| Purpose: Test \| Safety: None" |
| ProposalForm.Submit | src/components/ProposalForm.tsx:40-49 | title, date, attendance and venue pass through unchanged, and the notes are the built string |
| Stats.AttendeesOf | src/components/StatsCards.tsx:11 | an event without an attendance counts zero; otherwise its attendance counts |
| Stats.PublishedCount | src/components/StatsCards.tsx:12 | the published count is at most the number of events and is zero exactly when no event is published |
| Stats.ApprovedCount | src/components/StatsCards.tsx:13 | the approved count is at most the number of proposals and is zero exactly when no proposal is approved |
| Stats.PendingCount | src/components/StatsCards.tsx:46 | the pending count is at most the number of proposals and is zero exactly when no proposal is pending |
| Stats.CountsConcat | src/components/StatsCards.tsx:12-46 | each of the three counts adds up over concatenation |
| Stats.CountsOne | src/components/StatsCards.tsx:12-46 | a single event or proposal counts one exactly when it has the counted status, so each count is the number of elements with that status |
| Stats.TotalAttendees | src/components/StatsCards.tsx:11 | the attendance total is non-negative when every attendance is |
| Stats.TotalAttendeesConcat | src/components/StatsCards.tsx:11 | the attendance total distributes over concatenation |
| Stats.SameAttendanceSameTotal | src/components/StatsCards.tsx:11 | lists that agree position by position on attendance have the same total |
| Stats.Summarize | src/components/StatsCards.tsx:11-46 | total events is the list length; published events are at most total events; approved plus pending is at most the number of proposals |
| Stats.ApprovedPendingBound | src/components/StatsCards.tsx:13-46 | approved count plus pending count is at most the number of proposals |
| Stats.CreateKeepsTotalAttendees | src/App.tsx:131 | a creation leaves the attendance total unchanged |
| Stats.DuplicateKeepsTotalAttendees | src/App.tsx:164 | a duplication leaves the attendance total unchanged |
| Stats.UpdateKeepsTotalAttendees | src/App.tsx:141 | an update leaves the attendance total unchanged |
| Stats.SubmitProposalCounts | src/App.tsx:181 | a submission raises the pending count by exactly one and leaves the approved count unchanged |
| Stats.SeedSummary | src/components/StatsCards.tsx:11-18 | on the seed data the cards read 3 events, 325 attendees, 2 published, 1 approved, 1 pending |
| Settings.InitialPrefs | src/components/SettingsPanel.tsx:17-24 | exactly attendee messages and marketing emails start off; the other four start on |
| Settings.Toggle | src/components/SettingsPanel.tsx:28-30 | the toggled key is negated and every other key keeps its value |
| Settings.ToggleTwice | src/components/SettingsPanel.tsx:29 | toggling the same key twice restores the record |
| Settings.InitialPanel | src/components/SettingsPanel.tsx:17-26 | the initial preferences, with the saved banner off |
| Settings.HandleToggle | src/components/SettingsPanel.tsx:28-30 | a toggle flips one key, keeps the rest and leaves the save flag alone |
| Settings.HandleSave | src/components/SettingsPanel.tsx:32-35 | saving raises the save flag and leaves the preferences unchanged |

## Left out

- Rendering is left out: JSX, styling, dialogs, tabs, icons, menus, and the
  open/closed flags of the dialogs. `src/components/EventList.tsx`,
  `NotificationsPanel.tsx`, `Header.tsx`, `VerifiedProfile.tsx` and
  `AIRecommendations.tsx` are left out too. They show static content, or
  colour and date formatting. The capacity percentage in `EventList.tsx` uses
  floating-point division and `Math.round`.
- Timers are left out: the 2000 ms and 1500 ms delays before a suggestion
  appears, the `isGenerating` flag, and the 3000 ms reset of the save flag.
  Generation and enhancement stage their suggestion at once, and saving is a
  plain assignment.
- `Date.now().toString()` ids and the `toISOString` date are parameters. The
  model assumes nothing about the clock. A fresh id is a precondition only
  where distinctness is proved.
- `parseInt(...) || 0` for capacity and expected attendees is JavaScript
  string-to-number conversion. The forms receive an `int`.
- Browser validation (`required`, `min="1"`) is not code and is not modelled.
  Title, description and location are not checked for emptiness.
- EventForm.TemplateFor: a lookup on a JavaScript object also finds inherited
  properties. A category such as `constructor` would therefore select a
  non-string value. This is not modelled, and such categories get the default
  template. The category select only offers the ten listed categories, so
  this path cannot be reached.
- Text.Trim: characters are Unicode scalar values. Lone UTF-16 surrogates,
  which a JavaScript string may hold, are not represented.
- Stats.TotalAttendees: the sum is over unbounded integers. JavaScript number
  precision above 2^53 and `NaN` attendances are not modelled.
- Stats.Summarize: the "+2 this month" and "+12% from last month" captions
  are fixed text and are not modelled.
- The Generate button is disabled while the title or category is empty, and
  it shows only while the description is empty
  (`src/components/EventForm.tsx:187-193`). Enhance shows only with a
  non-empty description (`:165`). So generating from a fallback phrase
  (EventForm.GenerateEmptyTitle) and EnhanceDescription's empty-description
  branch are modelled as the handlers define them, although the page never
  reaches them.
- Enter on a blank tag box does not call `preventDefault`
  (`src/components/EventForm.tsx:79-80`), so the browser submits the whole
  form. EventForm.KeyDown models only the handler, which leaves the tags
  unchanged in that case. The browser's implicit submission is not modelled.
- Settings: the account and security tabs hold only uncontrolled inputs and
  are not modelled.
