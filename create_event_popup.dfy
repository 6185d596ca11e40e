/**
 * The event-creation form of a class calendar: its initial values, the rules
 * a form must pass before it is submitted, the conversion of a submitted
 * form into an event, and the display labels of the event types.
 */
module CreateEventPopup {
  import opened Wrappers

  /** The form's values. Dates are Unix seconds; `endDate` may be absent. */
  datatype EventForm = EventForm(eventName: string, startDate: int, endDate: Option<int>,
                                 description: string, eventType: string)

  /** An event as the backend receives it. Times are Unix milliseconds; `end` may be absent. */
  datatype Event = Event(name: string, start: int, end: Option<int>, description: string, eventType: string)

  /** The request to create `event` in the class with id `classId`. */
  datatype CreateEvent = CreateEvent(classId: string, event: Event)

  const MaxNameLength: nat := 50

  /** The four event types a form may select. */
  const EventTypes: seq<string> := ["homework", "holidays", "exam", "other"]

  /** The display label of each event type. */
  const TypeLabels: map<string, string> :=
    map["homework" := "Hausaufgabe", "holidays" := "Ferien", "exam" := "Prüfung", "other" := "Anderes"]

  /** The form as it opens: no name, both dates 0, type `other`. */
  const InitialValues: EventForm := EventForm("", 0, Some(0), "", "other")

  /**
   * The validation rules: a name of 1 to 50 characters, an end date (when
   * one is present) strictly after the start date, and one of the four types.
   * The description and the start date impose nothing.
   */
  predicate Validates(form: EventForm) {
    && 0 < |form.eventName| <= MaxNameLength
    && (form.endDate.Some? ==> form.endDate.value > form.startDate)
    && form.eventType in EventTypes
  }

  /** Seconds to milliseconds. */
  function Millis(seconds: int): int {
    seconds * 1000
  }

  /**
   * The event a submitted form creates in class `classId`: times scaled to
   * milliseconds, and an end date of 0 or none becomes no end.
   */
  function OnSubmit(classId: string, form: EventForm): (request: CreateEvent)
    ensures request.classId == classId
    ensures request.event.name == form.eventName
    ensures request.event.description == form.description
    ensures request.event.eventType == form.eventType
    ensures request.event.start % 1000 == 0
    ensures request.event.end.Some? <==> form.endDate.Some? && form.endDate.value != 0
    ensures request.event.end.Some? ==> request.event.end.value % 1000 == 0
  {
    var end := if form.endDate.Some? && form.endDate.value != 0 then Some(Millis(form.endDate.value)) else None;
    CreateEvent(classId, Event(form.eventName, Millis(form.startDate), end, form.description, form.eventType))
  }

  /** Reads an event back into form values, milliseconds to seconds. */
  function ToForm(event: Event): EventForm
  {
    var end := if event.end.Some? then Some(event.end.value / 1000) else None;
    EventForm(event.name, event.start / 1000, end, event.description, event.eventType)
  }

  /**
   * Submitting loses nothing but the distinction between an end date of 0
   * and no end date: reading the event back gives the form's own seconds.
   */
  lemma SubmitRoundTrip(classId: string, form: EventForm)
    ensures ToForm(OnSubmit(classId, form).event)
            == form.(endDate := if form.endDate == Some(0) then None else form.endDate)
  {
  }

  /** The display label of an event type; none for a string that is not a type. */
  function GetFormatted(eventType: string): (text: Option<string>)
    ensures text.Some? <==> eventType in EventTypes
    ensures text.Some? ==> text.value != ""
  {
    if eventType in TypeLabels then Some(TypeLabels[eventType]) else None
  }

  /** The four types have four different labels. */
  lemma GetFormattedInjective(a: string, b: string)
    requires a in EventTypes && b in EventTypes && a != b
    ensures GetFormatted(a) != GetFormatted(b)
  {
  }

  /**
   * The form as it opens is rejected whatever name is typed: its end date 0
   * is present and not after its start date 0. Its type is `other`.
   */
  lemma InitialValuesNeedDates(name: string)
    ensures !Validates(InitialValues.(eventName := name))
    ensures GetFormatted(InitialValues.eventType) == Some("Anderes")
  {
  }

  /**
   * A form that passes validation creates an event with a name of 1 to 50
   * characters, an end (if any) strictly after its start, and a type that
   * has a label.
   */
  lemma ValidatedEventIsWellFormed(classId: string, form: EventForm)
    requires Validates(form)
    ensures var event := OnSubmit(classId, form).event;
            && 0 < |event.name| <= MaxNameLength
            && (event.end.Some? ==> event.end.value > event.start)
            && GetFormatted(event.eventType).Some?
  {
  }

  /** An end date of 0 passes validation only with a start before 1970. */
  lemma ZeroEndNeedsNegativeStart(form: EventForm)
    requires Validates(form) && form.endDate == Some(0)
    ensures form.startDate < 0
  {
  }
}
