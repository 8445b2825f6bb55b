/** The stored event record and the response shape the API returns for it. */
module Models {
  import opened Wrappers
  import opened Calendar
  import opened DateFormat

  /** A `time.Time` that the model only copies, such as CreatedAt. */
  type Timestamp = int

  /** An event. `date` is the calendar day of the stored date; `familyMembers`
      and `selectedChildren` are JSON texts decoded at dispatch time. */
  datatype Event = Event(
    id: nat,
    title: string,
    description: string,
    date: Date,
    time: string,
    location: string,
    email: string,
    phone: string,
    reminderDay: bool,
    reminderDayBefore: bool,
    isAllDay: bool,
    color: string,
    priority: string,
    category: string,
    notifyFamily: bool,
    notifyPapa: bool,
    notifyMama: bool,
    childTag: string,
    familyMembers: string,
    selectedChildren: string,
    createdAt: Timestamp,
    updatedAt: Timestamp,
    deletedAt: Option<Timestamp>)

  /** The response sent to mobile clients: the date as text, no soft-delete
      marker and no selected children. */
  datatype EventResponse = EventResponse(
    id: nat,
    title: string,
    description: string,
    date: string,
    time: string,
    location: string,
    email: string,
    phone: string,
    reminderDay: bool,
    reminderDayBefore: bool,
    isAllDay: bool,
    color: string,
    priority: string,
    category: string,
    notifyFamily: bool,
    notifyPapa: bool,
    notifyMama: bool,
    childTag: string,
    familyMembers: string,
    createdAt: Timestamp,
    updatedAt: Timestamp)

  /** `Event.ToResponse`: every shared field carried over unchanged and the
      date rendered as `YYYY-MM-DD`. */
  function ToResponse(e: Event): (r: EventResponse)
    ensures r.id == e.id && r.title == e.title && r.description == e.description
    ensures r.time == e.time && r.location == e.location
    ensures r.email == e.email && r.phone == e.phone
    ensures r.reminderDay == e.reminderDay && r.reminderDayBefore == e.reminderDayBefore
    ensures r.isAllDay == e.isAllDay && r.color == e.color
    ensures r.priority == e.priority && r.category == e.category
    ensures r.notifyFamily == e.notifyFamily && r.notifyPapa == e.notifyPapa
    ensures r.notifyMama == e.notifyMama && r.childTag == e.childTag
    ensures r.familyMembers == e.familyMembers
    ensures r.createdAt == e.createdAt && r.updatedAt == e.updatedAt
    ensures ParseISODate(r.date) == Some(e.date)
    ensures 0 <= e.date.year <= 9999 ==> IsFullDate(r.date)
  {
    ISODateRoundTrip(e.date);
    EventResponse(
      e.id, e.title, e.description, FormatISODate(e.date), e.time, e.location,
      e.email, e.phone, e.reminderDay, e.reminderDayBefore,
      e.isAllDay, e.color, e.priority, e.category,
      e.notifyFamily, e.notifyPapa, e.notifyMama, e.childTag, e.familyMembers,
      e.createdAt, e.updatedAt)
  }

  /** Rebuilds an event from a response and the two fields the response omits;
      `None` when the date text is not a calendar day. */
  function FromResponse(r: EventResponse, selectedChildren: string, deletedAt: Option<Timestamp>): Option<Event> {
    match ParseISODate(r.date)
    case None => None
    case Some(d) =>
      Some(Event(
        r.id, r.title, r.description, d, r.time, r.location,
        r.email, r.phone, r.reminderDay, r.reminderDayBefore,
        r.isAllDay, r.color, r.priority, r.category,
        r.notifyFamily, r.notifyPapa, r.notifyMama, r.childTag, r.familyMembers,
        selectedChildren, r.createdAt, r.updatedAt, deletedAt))
  }

  /** The response loses nothing but `SelectedChildren` and `DeletedAt`. */
  lemma ResponseRoundTrip(e: Event)
    ensures FromResponse(ToResponse(e), e.selectedChildren, e.deletedAt) == Some(e)
  {
  }

  /** Two events with the same response differ at most in the omitted fields. */
  lemma ResponseDeterminesEvent(e1: Event, e2: Event)
    requires ToResponse(e1) == ToResponse(e2)
    ensures e1.(selectedChildren := e2.selectedChildren, deletedAt := e2.deletedAt) == e2
  {
  }
}
