/** The notification preferences of the settings dialog
    (src/components/SettingsPanel.tsx): six switches and a save flag. */
module Settings {

  datatype Prefs = Prefs(
    emailNotifications: bool,
    pushNotifications: bool,
    eventReminders: bool,
    proposalUpdates: bool,
    attendeeMessages: bool,
    marketingEmails: bool)

  /** The keys of `Prefs`, for `handleToggle(key)`. */
  datatype Key =
    | EmailNotifications | PushNotifications | EventReminders
    | ProposalUpdates | AttendeeMessages | MarketingEmails

  function Get(p: Prefs, k: Key): bool {
    match k
    case EmailNotifications => p.emailNotifications
    case PushNotifications => p.pushNotifications
    case EventReminders => p.eventReminders
    case ProposalUpdates => p.proposalUpdates
    case AttendeeMessages => p.attendeeMessages
    case MarketingEmails => p.marketingEmails
  }

  /** The starting preferences: the first four on, attendee messages and marketing off. */
  function InitialPrefs(): (p: Prefs)
    ensures forall k :: Get(p, k) <==> !(k == AttendeeMessages || k == MarketingEmails)
  {
    Prefs(true, true, true, true, false, false)
  }

  /** `handleToggle`: key `k` flips, every other key keeps its value. */
  function Toggle(p: Prefs, k: Key): (r: Prefs)
    ensures Get(r, k) == !Get(p, k)
    ensures forall k' :: k' != k ==> Get(r, k') == Get(p, k')
  {
    match k
    case EmailNotifications => p.(emailNotifications := !p.emailNotifications)
    case PushNotifications => p.(pushNotifications := !p.pushNotifications)
    case EventReminders => p.(eventReminders := !p.eventReminders)
    case ProposalUpdates => p.(proposalUpdates := !p.proposalUpdates)
    case AttendeeMessages => p.(attendeeMessages := !p.attendeeMessages)
    case MarketingEmails => p.(marketingEmails := !p.marketingEmails)
  }

  /** Toggling the same key twice restores the record. */
  lemma ToggleTwice(p: Prefs, k: Key)
    ensures Toggle(Toggle(p, k), k) == p
  {
  }

  /** The dialog's state: the preferences and whether the saved banner shows. */
  datatype Panel = Panel(notifications: Prefs, saveSuccess: bool)

  function InitialPanel(): (s: Panel)
    ensures s.notifications == InitialPrefs() && !s.saveSuccess
  {
    Panel(InitialPrefs(), false)
  }

  /** A toggle in the dialog changes the preferences only. */
  function HandleToggle(s: Panel, k: Key): (r: Panel)
    ensures r.saveSuccess == s.saveSuccess
    ensures Get(r.notifications, k) != Get(s.notifications, k)
    ensures forall k' :: k' != k ==> Get(r.notifications, k') == Get(s.notifications, k')
  {
    s.(notifications := Toggle(s.notifications, k))
  }

  /** `handleSave`: shows the saved banner and leaves the preferences as they are. */
  function HandleSave(s: Panel): (r: Panel)
    ensures r.saveSuccess
    ensures r.notifications == s.notifications
  {
    s.(saveSuccess := true)
  }
}
