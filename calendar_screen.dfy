/**
 * The calendar screen: the events of the selected date, the class and content of
 * each day tile, and the handlers for picking a date and adding an event.
 *
 * A JavaScript `Date` is abstracted as the calendar date it shows in local time and
 * the day part of its UTC ISO string; the conversion between the two (which depends
 * on the time zone) is not modelled, so both parts are inputs.
 */
module CalendarScreen {
  import opened Options
  import opened Seqs
  import opened JsString
  import opened AppContext

  /** The local calendar date of a `Date`: `getFullYear()`, `getMonth()`, `getDate()`. */
  datatype LocalDate = LocalDate(year: int, month: int, day: int)

  /** A `Date` as this screen reads it: its local date, and `toISOString().split('T')[0]`. */
  datatype DateValue = DateValue(local: LocalDate, isoDay: string)

  /**
   * What the date picker hands to its change handler: nothing, one date, or a range
   * given as an array (whose first element is its start).
   */
  datatype PickerValue =
    | NoValue
    | OneDate(d: DateValue)
    | DateRange(first: DateValue, rest: seq<DateValue>)

  /** The holiday table the screen loads once: ISO day to holiday name. */
  const HolidayTable: map<string, string> := map[
    "2025-01-01" := "元日",
    "2025-01-13" := "成人の日",
    "2025-02-11" := "建国記念日",
    "2025-02-23" := "天皇誕生日",
    "2025-03-21" := "春分の日",
    "2025-04-29" := "昭和の日",
    "2025-05-03" := "憲法記念日",
    "2025-05-04" := "みどりの日",
    "2025-05-05" := "こどもの日",
    "2025-07-21" := "海の日",
    "2025-08-11" := "山の日",
    "2025-09-15" := "敬老の日",
    "2025-09-23" := "秋分の日",
    "2025-10-13" := "スポーツの日",
    "2025-11-03" := "文化の日",
    "2025-11-23" := "勤労感謝の日"
  ]

  /** `holidays[day]` is truthy: the day has a non-empty holiday name. */
  predicate IsHoliday(holidays: map<string, string>, day: string) {
    day in holidays && holidays[day] != ""
  }

  /** Every name in the loaded table is non-empty, so a day is a holiday exactly when the table lists it. */
  lemma HolidayTableNamesNonEmpty(day: string)
    ensures IsHoliday(HolidayTable, day) <==> day in HolidayTable
  {}

  /** The loaded table lists only days of 2025, each with a name. */
  lemma HolidayTableIs2025()
    ensures forall day :: day in HolidayTable ==> day[..5] == "2025-" && HolidayTable[day] != ""
  {
  }

  /** `events.some(event => event.date === day)`. */
  predicate HasEventOn(events: seq<CalendarEvent>, day: string) {
    exists i :: 0 <= i < |events| && events[i].fields.date == day
  }

  /** `some` and `filter` agree: a day has an event exactly when its filtered list is non-empty. */
  lemma HasEventOnIffListed(events: seq<CalendarEvent>, day: string)
    ensures HasEventOn(events, day) <==> EventsOn(events, day) != []
  {
    if HasEventOn(events, day) {
      var i :| 0 <= i < |events| && events[i].fields.date == day;
      assert events[i] in EventsOn(events, day);
    }
    if EventsOn(events, day) != [] {
      var e := EventsOn(events, day)[0];
      var i :| 0 <= i < |events| && events[i] == e;
      assert events[i].fields.date == day;
    }
  }

  /**
   * `getTileClassName`: outside the month view no class; in it, a holiday first, then
   * today's date, then a day with an event, else no class.
   */
  function GetTileClassName(holidays: map<string, string>, events: seq<CalendarEvent>,
                            tile: DateValue, view: string, today: LocalDate): (r: Option<string>)
    ensures view != "month" ==> r == None
    ensures r == Some("holiday-tile") <==> view == "month" && IsHoliday(holidays, tile.isoDay)
    ensures r == Some("today-tile") <==>
      view == "month" && !IsHoliday(holidays, tile.isoDay) && tile.local == today
    ensures r == Some("event-tile") <==>
      && view == "month" && !IsHoliday(holidays, tile.isoDay) && tile.local != today
      && EventsOn(events, tile.isoDay) != []
    ensures r.Some? ==> r.value in {"holiday-tile", "today-tile", "event-tile"}
  {
    if view != "month" then None
    else if IsHoliday(holidays, tile.isoDay) then Some("holiday-tile")
    else if tile.local.day == today.day && tile.local.month == today.month && tile.local.year == today.year then
      Some("today-tile")
    else
      HasEventOnIffListed(events, tile.isoDay);
      if HasEventOn(events, tile.isoDay) then Some("event-tile") else None
  }

  /** What a month-view tile shows: the holiday name if any, and the number of events if any. */
  datatype TileContent = TileContent(holidayName: Option<string>, eventCount: Option<nat>)

  /**
   * `getTileContent`: nothing outside the month view; in it, the holiday name when the
   * day is a holiday, and the number of events dated that day when there is at least one.
   */
  function GetTileContent(holidays: map<string, string>, events: seq<CalendarEvent>,
                          tile: DateValue, view: string): (r: Option<TileContent>)
    ensures r.None? <==> view != "month"
    ensures r.Some? ==> (r.value.holidayName.Some? <==> IsHoliday(holidays, tile.isoDay))
    ensures r.Some? && r.value.holidayName.Some? ==> r.value.holidayName.value == holidays[tile.isoDay]
    ensures r.Some? ==> (r.value.eventCount.Some? <==> HasEventOn(events, tile.isoDay))
    ensures r.Some? && r.value.eventCount.Some? ==>
      r.value.eventCount.value == |set i: nat | i < |events| && events[i].fields.date == tile.isoDay|
  {
    if view != "month" then None
    else
      var dateEvents := EventsOn(events, tile.isoDay);
      FilterLengthCountsIndices(events, DatedOn(tile.isoDay));
      assert IndicesWhere(events, DatedOn(tile.isoDay))
          == set i: nat | i < |events| && events[i].fields.date == tile.isoDay;
      HasEventOnIffListed(events, tile.isoDay);
      Some(TileContent(
        if IsHoliday(holidays, tile.isoDay) then Some(holidays[tile.isoDay]) else None,
        if |dateEvents| > 0 then Some(|dateEvents|) else None))
  }

  /** The date a picker value selects: the date itself, or the first of an array. */
  function PickedDate(value: PickerValue): (d: DateValue)
    requires value != NoValue
    ensures value.OneDate? ==> d == value.d
    ensures value.DateRange? ==> d == value.first
  {
    match value
    case OneDate(d) => d
    case DateRange(first, _) => first
  }

  /** One change event from the event form. */
  datatype EventInput = EventTitleInput(title: string) | EventDescriptionInput(description: string)

  /**
   * The screen's own state. `newEvent` is the draft of the event form; its date always
   * equals the selected date, because both change together.
   */
  class CalendarScreen {
    const app: AppState
    var date: DateValue
    var newEvent: EventFields
    var selectedDate: string
    var holidays: map<string, string>
    var isAddingEvent: bool

    ghost predicate Valid()
      reads this
    {
      newEvent.date == selectedDate
    }

    /** The screen as first rendered at the moment `now`, before the holiday effect runs. */
    constructor (app: AppState, now: DateValue)
      ensures Valid() && this.app == app
      ensures date == now && selectedDate == now.isoDay && newEvent == EventFields("", now.isoDay, "")
      ensures holidays == map[] && !isAddingEvent
    {
      this.app := app;
      date := now;
      newEvent := EventFields("", now.isoDay, "");
      selectedDate := now.isoDay;
      holidays := map[];
      isAddingEvent := false;
    }

    /** The mount effect that fills the holiday table. */
    method LoadHolidays()
      modifies this`holidays
      ensures holidays == HolidayTable
    {
      holidays := HolidayTable;
    }

    /** `selectedDateEvents`: the events of the selected date, in list order. */
    function SelectedDateEvents(): (r: seq<CalendarEvent>)
      reads this, app
      ensures IsSubsequence(r, app.events)
      ensures forall e :: multiset(r)[e] == if e.fields.date == selectedDate then multiset(app.events)[e] else 0
    {
      FilterIsSubsequence(app.events, DatedOn(selectedDate));
      assert forall e :: (multiset(EventsOn(app.events, selectedDate))[e]
          == if e.fields.date == selectedDate then multiset(app.events)[e] else 0) by {
        forall e ensures multiset(EventsOn(app.events, selectedDate))[e]
            == if e.fields.date == selectedDate then multiset(app.events)[e] else 0 {
          FilterMultiplicity(app.events, DatedOn(selectedDate), e);
        }
      }
      EventsOn(app.events, selectedDate)
    }

    /**
     * `handleDateChange`: ignores an empty value; otherwise selects the picked date (the
     * first of an array) and moves the draft event to it.
     */
    method HandleDateChange(value: PickerValue)
      requires Valid()
      modifies this`date, this`selectedDate, this`newEvent
      ensures Valid()
      ensures value == NoValue ==>
        date == old(date) && selectedDate == old(selectedDate) && newEvent == old(newEvent)
      ensures value != NoValue ==>
        && date == PickedDate(value) && selectedDate == PickedDate(value).isoDay
        && newEvent == old(newEvent).(date := PickedDate(value).isoDay)
    {
      if value == NoValue {
        return;
      }
      var picked := PickedDate(value);
      date := picked;
      var dateStr := picked.isoDay;
      selectedDate := dateStr;
      newEvent := newEvent.(date := dateStr);
    }

    /** `handleInputChange`: the title or description of the draft changes. */
    method HandleInputChange(input: EventInput)
      requires Valid()
      modifies this`newEvent
      ensures Valid()
      ensures newEvent == match input
        case EventTitleInput(v) => old(newEvent).(title := v)
        case EventDescriptionInput(v) => old(newEvent).(description := v)
    {
      match input
      case EventTitleInput(v) => newEvent := newEvent.(title := v);
      case EventDescriptionInput(v) => newEvent := newEvent.(description := v);
    }

    /**
     * `handleAddEvent`: a blank title changes nothing; otherwise the draft is added once
     * under `id`, so it is the last event of the selected date, and the form is reset
     * to the selected date and closed.
     */
    method HandleAddEvent(id: string)
      requires Valid()
      modifies this`newEvent, this`isAddingEvent, app`events
      ensures Valid()
      ensures IsBlank(old(newEvent.title)) ==>
        app.events == old(app.events) && newEvent == old(newEvent) && isAddingEvent == old(isAddingEvent)
      ensures !IsBlank(old(newEvent.title)) ==>
        && app.events == old(app.events) + [CalendarEvent(id, old(newEvent))]
        && EventsOn(app.events, selectedDate) == EventsOn(old(app.events), selectedDate) + [CalendarEvent(id, old(newEvent))]
        && newEvent == EventFields("", selectedDate, "") && !isAddingEvent
    {
      if IsBlank(newEvent.title) {
        return;
      }
      EventsOnAppend(app.events, CalendarEvent(id, newEvent), selectedDate);
      app.AddEvent(newEvent, id);
      newEvent := EventFields("", selectedDate, "");
      isAddingEvent := false;
    }

    /** The add button opens the event form. */
    method OpenEventForm()
      modifies this`isAddingEvent
      ensures isAddingEvent
    {
      isAddingEvent := true;
    }

    /** The cancel button closes the event form; the draft is kept. */
    method CancelEventForm()
      modifies this`isAddingEvent
      ensures !isAddingEvent
    {
      isAddingEvent := false;
    }

    /** `handleDeleteEvent`. */
    method HandleDeleteEvent(id: string)
      modifies app`events
      ensures app.events == WithoutEvent(old(app.events), id)
    {
      app.DeleteEvent(id);
    }
  }
}
