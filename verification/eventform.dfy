/** The create/edit event form (src/components/EventForm.tsx): its field
    state, the tag editor, the template-based description generator and the
    staged suggestion, and the draft it submits. */
module EventForm {
  import opened Seqs
  import opened Text
  import opened Model

  /** `formData`: every editable event field except the tags. */
  datatype FormData = FormData(
    title: string,
    description: string,
    date: string,
    time: string,
    location: string,
    mode: Mode,
    capacity: int,
    category: string,
    status: Status,
    proposalStatus: Option<Approval>)

  /** The form's whole state: fields, committed tags, the tag being typed,
      and the staged description suggestion (`""` when none). */
  datatype Form = Form(data: FormData, tags: seq<string>, tagInput: string, suggestion: string)

  /** `handleSubmit`: the fields together with the tags. */
  function Submit(f: Form): (d: EventDraft)
    ensures d.tags == f.tags
    ensures d.title == f.data.title && d.description == f.data.description
    ensures d.date == f.data.date && d.time == f.data.time && d.location == f.data.location
    ensures d.mode == f.data.mode && d.capacity == f.data.capacity && d.category == f.data.category
    ensures d.status == f.data.status && d.proposalStatus == f.data.proposalStatus
  {
    EventDraft(f.data.title, f.data.description, f.data.date, f.data.time, f.data.location,
               f.data.mode, f.data.capacity, f.data.category, f.tags, f.data.status,
               f.data.proposalStatus)
  }

  /** A new form: empty text fields and category, in person, capacity 50,
      draft, no proposal, no tags, nothing typed or staged. */
  function InitialForm(): (f: Form)
    ensures Submit(f) == EventDraft("", "", "", "", "", InPerson, 50, "", [], Draft, None)
    ensures f.tagInput == "" && f.suggestion == ""
  {
    Form(FormData("", "", "", "", "", InPerson, 50, "", Draft, None), [], "", "")
  }

  /** The effect run when the form receives an event to edit: every editable
      field and the tags are copied from it (an absent proposal status reads
      as none); with no event the form is left alone. */
  function Load(f: Form, event: Option<Event>): (r: Form)
    ensures event.None? ==> r == f
    ensures event.Some? ==> Submit(r) == DraftOf(event.value)
    ensures r.tagInput == f.tagInput && r.suggestion == f.suggestion
  {
    match event
    case None => f
    case Some(e) =>
      f.(data := FormData(e.title, e.description, e.date, e.time, e.location, e.mode,
                          e.capacity, e.category, e.status, e.proposalStatus),
         tags := e.tags)
  }

  /** One `handleChange(field, value)` call, for the fields the form edits. */
  datatype Edit =
    | SetTitle(s: string) | SetDescription(s: string) | SetDate(s: string)
    | SetTime(s: string) | SetLocation(s: string) | SetMode(m: Mode)
    | SetCapacity(n: int) | SetCategory(s: string) | SetStatus(st: Status)

  /** `handleChange`: the named field takes the value, nothing else changes. */
  function Change(f: Form, edit: Edit): (r: Form)
    ensures r.tags == f.tags && r.tagInput == f.tagInput && r.suggestion == f.suggestion
    ensures r.data.proposalStatus == f.data.proposalStatus
    ensures r.data.title == if edit.SetTitle? then edit.s else f.data.title
    ensures r.data.description == if edit.SetDescription? then edit.s else f.data.description
    ensures r.data.date == if edit.SetDate? then edit.s else f.data.date
    ensures r.data.time == if edit.SetTime? then edit.s else f.data.time
    ensures r.data.location == if edit.SetLocation? then edit.s else f.data.location
    ensures r.data.mode == if edit.SetMode? then edit.m else f.data.mode
    ensures r.data.capacity == if edit.SetCapacity? then edit.n else f.data.capacity
    ensures r.data.category == if edit.SetCategory? then edit.s else f.data.category
    ensures r.data.status == if edit.SetStatus? then edit.st else f.data.status
  {
    var d := f.data;
    var d' := match edit
      case SetTitle(s) => d.(title := s)
      case SetDescription(s) => d.(description := s)
      case SetDate(s) => d.(date := s)
      case SetTime(s) => d.(time := s)
      case SetLocation(s) => d.(location := s)
      case SetMode(m) => d.(mode := m)
      case SetCapacity(n) => d.(capacity := n)
      case SetCategory(s) => d.(category := s)
      case SetStatus(st) => d.(status := st);
    f.(data := d')
  }

  // The tag editor

  /** Typing in the tag box replaces what has been typed. */
  function TypeTag(f: Form, text: string): (r: Form)
    ensures r.tagInput == text && r.tags == f.tags && r.data == f.data && r.suggestion == f.suggestion
  {
    f.(tagInput := text)
  }

  /** `handleAddTag`: on Enter with something other than whitespace typed, the
      trimmed text is appended to the tags unless already present, and the
      box is cleared either way. Any other key, or a blank box, changes nothing. */
  function KeyDown(f: Form, key: string): (r: Form)
    ensures r.data == f.data && r.suggestion == f.suggestion
    ensures key != "Enter" || AllWhitespace(f.tagInput) ==> r == f
    ensures key == "Enter" && !AllWhitespace(f.tagInput) ==>
      var t := Trim(f.tagInput);
      && r.tagInput == ""
      && |f.tags| <= |r.tags| <= |f.tags| + 1 && r.tags[..|f.tags|] == f.tags
      && (forall x :: x in r.tags <==> x in f.tags || x == t)
      && (t in f.tags ==> r.tags == f.tags)
  {
    var t := Trim(f.tagInput);
    if key == "Enter" && t != "" then
      f.(tags := if t in f.tags then f.tags else f.tags + [t], tagInput := "")
    else
      f
  }

  /** Committing a tag never introduces a duplicate. */
  lemma KeyDownKeepsTagsDistinct(f: Form, key: string)
    requires Distinct(f.tags)
    ensures Distinct(KeyDown(f, key).tags)
  {
  }

  /** The filter predicate of `handleRemoveTag`: keep the tags that differ. */
  function KeepOtherTags(tag: string): string -> bool {
    x => x != tag
  }

  /** `handleRemoveTag`: every occurrence of the tag goes, the rest stay. */
  function RemoveTag(f: Form, tag: string): (r: Form)
    ensures r.data == f.data && r.tagInput == f.tagInput && r.suggestion == f.suggestion
    ensures tag !in r.tags
    ensures forall x :: x != tag ==> (x in r.tags <==> x in f.tags)
    ensures tag !in f.tags ==> r == f
  {
    if tag !in f.tags then
      FilterKeepsAll(KeepOtherTags(tag), f.tags);
      f.(tags := Filter(KeepOtherTags(tag), f.tags))
    else
      f.(tags := Filter(KeepOtherTags(tag), f.tags))
  }

  /** Removal works piecewise, so the remaining tags keep their order. */
  lemma RemoveTagKeepsOrder(f: Form, a: seq<string>, b: seq<string>, tag: string)
    requires f.tags == a + b
    ensures RemoveTag(f, tag).tags == RemoveTag(f.(tags := a), tag).tags + RemoveTag(f.(tags := b), tag).tags
  {
    FilterConcat(KeepOtherTags(tag), a, b);
  }

  /** Removing a tag just committed from a tag list that did not hold it
      restores the tag list. */
  lemma AddThenRemoveRestores(f: Form)
    requires !AllWhitespace(f.tagInput) && Trim(f.tagInput) !in f.tags
    ensures RemoveTag(KeyDown(f, "Enter"), Trim(f.tagInput)).tags == f.tags
  {
    var t := Trim(f.tagInput);
    var p := KeepOtherTags(t);
    assert KeyDown(f, "Enter").tags == f.tags + [t];
    FilterConcat(p, f.tags, [t]);
    FilterKeepsAll(p, f.tags);
  }

  // Description generation

  /** A description template: `lead + subject + middle + mode + tail`, where
      the subject is the title or, when the title is empty, `fallback`. */
  datatype Template = Template(lead: string, fallback: string, middle: string, tail: string)

  const TechnologyTemplate := Template(
    "Join us for an immersive ", "technology event",
    " designed to bring together innovators, developers, and tech enthusiasts. This ",
    " event will feature cutting-edge demonstrations, expert-led sessions, and unparalleled networking opportunities. Whether you're a seasoned professional or just starting your journey, you'll gain valuable insights into the latest trends and technologies shaping our digital future.")

  const BusinessTemplate := Template(
    "Discover new opportunities at ", "our business event",
    ", where industry leaders and entrepreneurs converge to share insights and forge meaningful connections. This ",
    " gathering offers a unique platform for professionals to exchange ideas, explore innovative business strategies, and build lasting partnerships.")

  const EducationTemplate := Template(
    "Transform your learning journey at ", "this educational event",
    ", offering comprehensive training and skill development opportunities. This ",
    " program combines expert instruction with hands-on practice, ensuring participants gain practical knowledge they can apply immediately.")

  const ArtsTemplate := Template(
    "Immerse yourself in creativity at ", "this cultural celebration",
    ", showcasing diverse artistic expressions and cultural heritage. This ",
    " event brings together artists, performers, and culture enthusiasts in a vibrant celebration of human creativity.")

  const DefaultTemplate := Template(
    "Experience ", "an exceptional event",
    " that brings people together for meaningful engagement and shared experiences. This ",
    " gathering is thoughtfully designed to deliver value, foster connections, and create lasting memories.")

  /** The four categories with a template of their own. */
  const TemplatedCategories: set<string> := {"Technology", "Business", "Education", "Arts & Culture"}

  /** The lookup `suggestions[category] || suggestions.default`: each of the
      four templated categories has a template of its own, and every other
      category, the empty one included, gets the default. */
  function TemplateFor(category: string): (t: Template)
    ensures t == TechnologyTemplate <==> category == "Technology"
    ensures t == BusinessTemplate <==> category == "Business"
    ensures t == EducationTemplate <==> category == "Education"
    ensures t == ArtsTemplate <==> category == "Arts & Culture"
    ensures t == DefaultTemplate <==> category !in TemplatedCategories
  {
    if category == "Technology" then TechnologyTemplate
    else if category == "Business" then BusinessTemplate
    else if category == "Education" then EducationTemplate
    else if category == "Arts & Culture" then ArtsTemplate
    else DefaultTemplate
  }

  /** `formData.title || fallback`: the empty title is replaced. */
  function Subject(t: Template, title: string): string {
    if title == "" then t.fallback else title
  }

  /** The text a template yields for a title and mode: it opens with the
      template's lead and the subject and closes with the mode and the
      template's tail, with the middle in between. */
  function Render(t: Template, title: string, mode: Mode): (text: string)
    ensures var subject := Subject(t, title);
      && |text| == |t.lead| + |subject| + |t.middle| + |ModeText(mode)| + |t.tail|
      && text[..|t.lead| + |subject|] == t.lead + subject
      && text[|t.lead| + |subject|..|text| - |ModeText(mode)| - |t.tail|] == t.middle
      && text[|text| - |ModeText(mode)| - |t.tail|..] == ModeText(mode) + t.tail
  {
    var subject := Subject(t, title);
    var text := t.lead + subject + t.middle + ModeText(mode) + t.tail;
    assert text == (t.lead + subject) + (t.middle + ModeText(mode) + t.tail);
    assert text == (t.lead + subject + t.middle) + (ModeText(mode) + t.tail);
    assert text[|t.lead| + |subject|..|text| - |ModeText(mode)| - |t.tail|]
      == (t.lead + subject + t.middle)[|t.lead| + |subject|..];
    text
  }

  /** The generated description for the form's title, mode and category: the
      category's template with the title (or its fallback) after the lead and
      the mode's wording before the tail. */
  function Generate(title: string, mode: Mode, category: string): (text: string)
    ensures var t := TemplateFor(category); var subject := if title == "" then t.fallback else title;
      && |text| == |t.lead| + |subject| + |t.middle| + |ModeText(mode)| + |t.tail|
      && t.lead + subject <= text
      && text[|t.lead| + |subject|..|text| - |ModeText(mode)| - |t.tail|] == t.middle
      && text[|text| - |ModeText(mode)| - |t.tail|..] == ModeText(mode) + t.tail
  {
    Render(TemplateFor(category), title, mode)
  }

  /** An empty title reads as the template's fallback phrase. */
  lemma GenerateEmptyTitle(mode: Mode, category: string)
    ensures Generate("", mode, category) == Generate(TemplateFor(category).fallback, mode, category)
  {
  }

  /** Under one template, distinct non-empty titles give distinct texts. */
  lemma RenderTitleInjective(t: Template, t1: string, t2: string, mode: Mode)
    requires t1 != "" && t2 != ""
    requires Render(t, t1, mode) == Render(t, t2, mode)
    ensures t1 == t2
  {
    var g := Render(t, t1, mode);
    assert |t1| == |t2|;
    assert g[..|t.lead| + |t1|] == t.lead + t1;
    assert g[..|t.lead| + |t2|] == t.lead + t2;
    assert (t.lead + t1)[|t.lead|..] == t1;
    assert (t.lead + t2)[|t.lead|..] == t2;
  }

  /** Distinct non-empty titles give distinct generated texts. */
  lemma GenerateTitleInjective(t1: string, t2: string, mode: Mode, category: string)
    requires t1 != "" && t2 != ""
    requires Generate(t1, mode, category) == Generate(t2, mode, category)
    ensures t1 == t2
  {
    RenderTitleInjective(TemplateFor(category), t1, t2, mode);
  }

  /** Distinct modes give distinct generated texts. */
  lemma GenerateModeInjective(title: string, m1: Mode, m2: Mode, category: string)
    requires Generate(title, m1, category) == Generate(title, m2, category)
    ensures m1 == m2
  {
  }

  /** `generateDescription`: stages the generated text, changing nothing else. */
  function GenerateDescription(f: Form): (r: Form)
    ensures r.data == f.data && r.tags == f.tags && r.tagInput == f.tagInput
    ensures r.suggestion == Generate(f.data.title, f.data.mode, f.data.category)
  {
    f.(suggestion := Generate(f.data.title, f.data.mode, f.data.category))
  }

  /** The fixed block `enhanceDescription` appends. */
  const EnhanceSuffix := "\n\nWhat to Expect:\n\U{2022} Engaging presentations from industry experts\n\U{2022} Interactive Q&A sessions\n\U{2022} Networking opportunities with peers\n\U{2022} Practical takeaways you can implement immediately\n\nDon't miss this opportunity to be part of something extraordinary!"

  /** `enhanceDescription`: with no description it generates one; otherwise it
      stages the description followed by the fixed block. */
  function EnhanceDescription(f: Form): (r: Form)
    ensures r.data == f.data && r.tags == f.tags && r.tagInput == f.tagInput
    ensures f.data.description == "" ==> r == GenerateDescription(f)
    ensures f.data.description != "" ==>
      && f.data.description < r.suggestion
      && r.suggestion[|f.data.description|..] == EnhanceSuffix
  {
    if f.data.description == "" then GenerateDescription(f)
    else f.(suggestion := f.data.description + EnhanceSuffix)
  }

  /** `applyAISuggestion`: the staged text becomes the description and the
      suggestion is cleared; nothing else changes. */
  function ApplySuggestion(f: Form): (r: Form)
    ensures r.data == f.data.(description := f.suggestion)
    ensures r.suggestion == "" && r.tags == f.tags && r.tagInput == f.tagInput
  {
    f.(data := f.data.(description := f.suggestion), suggestion := "")
  }

  /** Dismiss: the suggestion is cleared and nothing else changes. */
  function DismissSuggestion(f: Form): (r: Form)
    ensures r.suggestion == "" && r.data == f.data && r.tags == f.tags && r.tagInput == f.tagInput
  {
    f.(suggestion := "")
  }

  /** Applying an enhancement keeps the old description as a prefix of the new
      one, and the submitted draft differs only in its description. */
  lemma ApplyEnhancedKeepsPrefix(f: Form)
    requires f.data.description != ""
    ensures var g := ApplySuggestion(EnhanceDescription(f));
      && f.data.description < g.data.description
      && Submit(g) == Submit(f).(description := g.data.description)
  {
  }
}
