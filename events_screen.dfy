/** The event-list screen: the events loaded from the backend, the
    "Add New Event" modal with its form fields, and the create flow, which
    refuses a name an already loaded event has before any request is made.
    Replies of the backend are inputs; dates are abstract timestamps. */
module EventsScreen {
  import opened Common

  /** A point in time, as the date picker delivers it. */
  type Date = nat

  /** An event as the list shows it. */
  datatype Event = Event(id: string, eventName: string, eventDate: string)

  /** The body of `POST /create-event`. */
  datatype CreateRequest = CreateRequest(eventName: string, eventDate: Date, prompt: string, negativePrompt: string)

  /** How the create request ended: a reply with status `ok` carrying the
      stored event, a reply with any other status carrying a message, or a
      request that threw. */
  datatype CreateReply = Created(event: Event) | Refused(message: string) | Failed

  /** The search condition of the uniqueness check. */
  function HasName(name: string): Event -> bool
  {
    (e: Event) => e.eventName == name
  }

  /** `events.find(event => event.event_name === name)` finds something,
      which is exactly when some loaded event has the name. */
  predicate NameTaken(events: seq<Event>, name: string): (b: bool)
    ensures b <==> exists i :: 0 <= i < |events| && events[i].eventName == name
  {
    var r := FindIndex(events, HasName(name));
    assert r.Some? ==> events[r.value].eventName == name;
    r.Some?
  }

  /** After a created event is appended, the uniqueness check refuses its
      name, and every name it refused before is still refused; a name it
      lets through was not in the list before. */
  lemma {:induction false} AppendCreatedTakesName(events: seq<Event>, e: Event, name: string)
    ensures NameTaken(events + [e], e.eventName)
    ensures NameTaken(events, name) ==> NameTaken(events + [e], name)
    ensures !NameTaken(events + [e], name) ==> !NameTaken(events, name) && e.eventName != name
  {
    assert (events + [e])[|events|] == e;
    if NameTaken(events, name) {
      var i :| 0 <= i < |events| && events[i].eventName == name;
      assert (events + [e])[i] == events[i];
    }
  }

  class Screen {
    var events: seq<Event>
    var loading: bool
    var isModalVisible: bool
    var newEventName: string
    var newEventDate: Date
    var showDatePicker: bool
    var newPrompt: string
    var newNegativePrompt: string

    /** The initial state: no events, loading, modal and picker hidden,
        empty form fields and today's date. */
    constructor (today: Date)
      ensures events == [] && loading && !isModalVisible && !showDatePicker
      ensures newEventName == "" && newPrompt == "" && newNegativePrompt == "" && newEventDate == today
    {
      events, loading, isModalVisible := [], true, false;
      newEventName, newEventDate, showDatePicker := "", today, false;
      newPrompt, newNegativePrompt := "", "";
    }

    /** The mount effect: a successful `GET /events` replaces the list, a
        failed one keeps it; either way loading ends. */
    method LoadEvents(reply: Option<seq<Event>>)
      modifies this
      ensures events == (if reply.Some? then reply.value else old(events))
      ensures !loading
      ensures isModalVisible == old(isModalVisible) && showDatePicker == old(showDatePicker)
      ensures newEventName == old(newEventName) && newEventDate == old(newEventDate)
      ensures newPrompt == old(newPrompt) && newNegativePrompt == old(newNegativePrompt)
    {
      if reply.Some? {
        events := reply.value;
      }
      loading := false;
    }

    /** `toggleModal`: the modal's visibility is negated, nothing else changes. */
    method ToggleModal()
      modifies this
      ensures isModalVisible == !old(isModalVisible)
      ensures events == old(events) && showDatePicker == old(showDatePicker) && loading == old(loading)
      ensures newEventName == old(newEventName) && newEventDate == old(newEventDate)
      ensures newPrompt == old(newPrompt) && newNegativePrompt == old(newNegativePrompt)
    {
      isModalVisible := !isModalVisible;
    }

    /** `showDatePickerModal`. */
    method ShowDatePickerModal()
      modifies this
      ensures showDatePicker
      ensures events == old(events) && isModalVisible == old(isModalVisible) && loading == old(loading)
      ensures newEventName == old(newEventName) && newEventDate == old(newEventDate)
      ensures newPrompt == old(newPrompt) && newNegativePrompt == old(newNegativePrompt)
    {
      showDatePicker := true;
    }

    /** `handleDateChange`: the picker closes; an absent selection keeps the
        previous date, a present one replaces it. */
    method HandleDateChange(selected: Option<Date>)
      modifies this
      ensures !showDatePicker
      ensures newEventDate == (if selected.Some? then selected.value else old(newEventDate))
      ensures events == old(events) && isModalVisible == old(isModalVisible) && loading == old(loading)
      ensures newEventName == old(newEventName)
      ensures newPrompt == old(newPrompt) && newNegativePrompt == old(newNegativePrompt)
    {
      showDatePicker := false;
      if selected.Some? {
        newEventDate := selected.value;
      }
    }

    /** `handleSaveNewEvent`. A name some loaded event already has is refused
        with an alert and no request. Otherwise the form is sent as `request`
        and `reply` is how it ended: `ok` appends the returned event and
        toggles the modal; any other reply only raises an alert. */
    method SaveNewEvent(reply: CreateReply) returns (request: Option<CreateRequest>, alert: Alert)
      modifies this
      ensures NameTaken(old(events), old(newEventName)) ==>
        request == None && alert == Alert("Error", "Event name must be unique") &&
        events == old(events) && isModalVisible == old(isModalVisible)
      ensures !NameTaken(old(events), old(newEventName)) ==>
        request == Some(CreateRequest(old(newEventName), old(newEventDate), old(newPrompt), old(newNegativePrompt)))
      ensures !NameTaken(old(events), old(newEventName)) && reply.Created? ==>
        events == old(events) + [reply.event] && isModalVisible == !old(isModalVisible) &&
        alert == Alert("Success", "Event created successfully")
      ensures !NameTaken(old(events), old(newEventName)) && !reply.Created? ==>
        events == old(events) && isModalVisible == old(isModalVisible)
      ensures !NameTaken(old(events), old(newEventName)) && reply.Refused? ==> alert == Alert("Error", reply.message)
      ensures !NameTaken(old(events), old(newEventName)) && reply.Failed? ==> alert == Alert("Error", "Failed to create event")
      ensures newEventName == old(newEventName) && newEventDate == old(newEventDate)
      ensures newPrompt == old(newPrompt) && newNegativePrompt == old(newNegativePrompt)
      ensures showDatePicker == old(showDatePicker) && loading == old(loading)
    {
      if NameTaken(events, newEventName) {
        return None, Alert("Error", "Event name must be unique");
      }
      request := Some(CreateRequest(newEventName, newEventDate, newPrompt, newNegativePrompt));
      match reply
      case Created(e) =>
        events := events + [e];
        ToggleModal();
        alert := Alert("Success", "Event created successfully");
      case Refused(message) =>
        alert := Alert("Error", message);
      case Failed =>
        alert := Alert("Error", "Failed to create event");
    }
  }

  /** Toggling the modal twice restores its visibility. */
  method ToggleModalTwice(s: Screen)
    modifies s
    ensures s.isModalVisible == old(s.isModalVisible) && s.events == old(s.events)
  {
    s.ToggleModal();
    s.ToggleModal();
  }
}
