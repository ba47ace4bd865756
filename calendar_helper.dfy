/**
 * GoogleCalendarHelper (google_calendar_helper.py): building an event from
 * the extracted fields, inserting it through the Calendar API client, and
 * turning every outcome into the four-key result dict; plus the lazily built
 * module-level helper that get_calendar_helper hands out.
 *
 * The API client is seen only through the insert requests it receives; what
 * the provider answers is the parameter InsertOutcome.
 */
module CalendarHelper {
  import opened Wrappers
  import opened Text
  import opened Json
  import opened CivilTime

  // ---------------------------------------------------------------------------
  // Constants of config/settings.py
  // ---------------------------------------------------------------------------

  const DefaultTimeZone: string := "Asia/Jerusalem"

  /** One reminder override: how ('popup' or 'email') and how many minutes before. */
  datatype Reminder = Reminder(kind: string, minutes: int)

  datatype Reminders = Reminders(useDefault: bool, overrides: seq<Reminder>)

  /** No calendar default reminders; a popup 30 minutes before and an email one day before. */
  const DefaultReminders: Reminders := Reminders(false, [Reminder("popup", 30), Reminder("email", 24 * 60)])

  // ---------------------------------------------------------------------------
  // The event body and the results
  // ---------------------------------------------------------------------------

  datatype EventTime = EventTime(dateTime: string, timeZone: string)

  /** The body passed to events().insert. */
  datatype EventBody = EventBody(
    summary: JValue,
    description: JValue,
    start: EventTime,
    end: EventTime,
    reminders: Reminders)

  /** One events().insert(calendarId=..., body=...) request. */
  datatype InsertRequest = InsertRequest(calendarId: string, body: EventBody)

  /**
   * What events().insert(...).execute() does: return the created event (its
   * 'id' and 'htmlLink', None where absent), raise HttpError (carrying its
   * str()), or raise any other exception (carrying its str()).
   */
  datatype InsertOutcome =
    | Created(id: Option<string>, htmlLink: Option<string>)
    | HttpFailure(detail: string)
    | OtherFailure(detail: string)

  /** The dict create_event returns: 'success', 'message', 'event_link', 'event_id'. */
  datatype EventResult = EventResult(
    success: bool,
    message: string,
    eventLink: Option<string>,
    eventId: Option<string>)

  /** Why the try block of create_event stopped before the insert. */
  datatype PlanFailure =
    | InvalidDateTime  // _parse_datetime raised ValueError
    | RuntimeFault     // timedelta rejected the duration (TypeError), or the end left the years 1..9999 (OverflowError)

  // ---------------------------------------------------------------------------
  // Localized texts
  // ---------------------------------------------------------------------------

  /** The texts are Hebrew exactly for the language string "hebrew"; any other value gets English. */
  predicate IsHebrew(language: JValue)
  {
    language == JString("hebrew")
  }

  const SuccessMark: string := "✅"
  const FailureMark: string := "❌"

  predicate StartsWith(s: string, prefix: string)
  {
    |prefix| <= |s| && s[..|prefix|] == prefix
  }

  predicate EndsWith(s: string, suffix: string)
  {
    |suffix| <= |s| && s[|s| - |suffix|..] == suffix
  }

  function NotConfiguredText(language: JValue): (s: string)
    ensures StartsWith(s, FailureMark)
  {
    if IsHebrew(language) then FailureMark + " שירות גוגל קלנדר לא מוגדר. אנא הגדר את קובץ האישורים."
    else FailureMark + " Google Calendar service not configured. Please set up credentials file."
  }

  /** A mark, then four labelled values: the shape of the confirmation message. */
  function FillTemplate(
    mark: string, label1: string, value1: string, label2: string, value2: string,
    label3: string, value3: string, label4: string, value4: string): (s: string)
    ensures StartsWith(s, mark)
    ensures Contains(s, value1) && Contains(s, value2) && Contains(s, value3)
    ensures EndsWith(s, value4)
  {
    var a1 := mark + label1;
    var p1 := a1 + value1;
    var a2 := p1 + label2;
    var p2 := a2 + value2;
    var a3 := p2 + label3;
    var p3 := a3 + value3;
    var a4 := p3 + label4;
    var s := a4 + value4;
    OccursAtEnd([], mark);
    OccursExtend(mark, label1, mark, 0);
    OccursAtEnd(a1, value1);
    OccursAtEnd(a2, value2);
    OccursAtEnd(a3, value3);
    // Carry the earlier occurrences through each later append.
    OccursExtend(a1, value1, mark, 0);
    OccursExtend(p1, label2, mark, 0);
    OccursExtend(a2, value2, mark, 0);
    OccursExtend(p2, label3, mark, 0);
    OccursExtend(a3, value3, mark, 0);
    OccursExtend(p3, label4, mark, 0);
    OccursExtend(a4, value4, mark, 0);
    OccursExtend(p1, label2, value1, |a1|);
    OccursExtend(a2, value2, value1, |a1|);
    OccursExtend(p2, label3, value1, |a1|);
    OccursExtend(a3, value3, value1, |a1|);
    OccursExtend(p3, label4, value1, |a1|);
    OccursExtend(a4, value4, value1, |a1|);
    OccursExtend(p2, label3, value2, |a2|);
    OccursExtend(a3, value3, value2, |a2|);
    OccursExtend(p3, label4, value2, |a2|);
    OccursExtend(a4, value4, value2, |a2|);
    OccursExtend(p3, label4, value3, |a3|);
    OccursExtend(a4, value4, value3, |a3|);
    assert s[|s| - |value4|..] == value4;
    s
  }

  /**
   * The confirmation: the success mark, then the date, time, duration and
   * title exactly as str() renders the values it was given, title last.
   */
  function ConfirmationText(language: JValue, date: JValue, time: JValue, duration: JValue, title: JValue): (s: string)
    ensures StartsWith(s, SuccessMark)
    ensures Contains(s, Str(date)) && Contains(s, Str(time)) && Contains(s, Str(duration))
    ensures EndsWith(s, Str(title))
  {
    if IsHebrew(language) then
      FillTemplate(SuccessMark, " הפגישה נקבעה בהצלחה!\n📅 תאריך: ", Str(date), "\n🕐 שעה: ", Str(time),
                   "\n⏱️ משך: ", Str(duration), " דקות\n📝 נושא: ", Str(title))
    else
      FillTemplate(SuccessMark, " Appointment scheduled successfully!\n📅 Date: ", Str(date), "\n🕐 Time: ", Str(time),
                   "\n⏱️ Duration: ", Str(duration), " minutes\n📝 Title: ", Str(title))
  }

  /** The wrapper create_event puts around the text of an HttpError. */
  function ApiErrorPrefix(language: JValue): string
  {
    if IsHebrew(language) then FailureMark + " שגיאה בקביעת הפגישה: " else FailureMark + " Error scheduling appointment: "
  }

  /** The wrapper create_event puts around the text of any other exception. */
  function UnexpectedErrorPrefix(language: JValue): string
  {
    if IsHebrew(language) then FailureMark + " שגיאה לא צפויה: " else FailureMark + " Unexpected error: "
  }

  /** An HttpError's text, behind the API-error wrapper. */
  function ApiErrorText(language: JValue, detail: string): (s: string)
    ensures StartsWith(s, FailureMark)
    ensures StartsWith(s, ApiErrorPrefix(language)) && EndsWith(s, detail)
    ensures |s| == |ApiErrorPrefix(language)| + |detail|
  {
    var s := ApiErrorPrefix(language) + detail;
    assert s[..|FailureMark|] == ApiErrorPrefix(language)[..|FailureMark|];
    s
  }

  /** Any other exception's text, behind the unexpected-error wrapper. */
  function UnexpectedErrorText(language: JValue, detail: string): (s: string)
    ensures StartsWith(s, FailureMark)
    ensures StartsWith(s, UnexpectedErrorPrefix(language)) && EndsWith(s, detail)
    ensures |s| == |UnexpectedErrorPrefix(language)| + |detail|
  {
    var s := UnexpectedErrorPrefix(language) + detail;
    assert s[..|FailureMark|] == UnexpectedErrorPrefix(language)[..|FailureMark|];
    s
  }

  /** The two wrappers differ in every language, so an API error is never reported as an unexpected one. */
  lemma ErrorWrappersDiffer(language: JValue, apiDetail: string, otherDetail: string)
    ensures ApiErrorText(language, apiDetail) != UnexpectedErrorText(language, otherDetail)
  {
    var a, u := ApiErrorText(language, apiDetail), UnexpectedErrorText(language, otherDetail);
    var k := if IsHebrew(language) then 8 else 2;
    assert a[k] == ApiErrorPrefix(language)[k];
    assert u[k] == UnexpectedErrorPrefix(language)[k];
  }

  /** The text the ValueError that _parse_datetime re-raises carries, around strptime's own text. */
  function InvalidDateTimeText(strptimeDetail: string): string
  {
    "Invalid date/time format: " + strptimeDetail
  }

  // ---------------------------------------------------------------------------
  // Parsing and event construction
  // ---------------------------------------------------------------------------

  /** _parse_datetime: strptime(f"{date_str} {time_str}", "%Y-%m-%d %H:%M"), None where it raises. */
  function ParseDateTime(date: JValue, time: JValue): (r: Option<DateTime>)
    ensures r.Some? ==> Valid(r.value) && InPythonRange(r.value)
  {
    Strptime(Str(date) + " " + Str(time))
  }

  /**
   * _parse_datetime succeeds with t exactly when "{date_str} {time_str}" is a
   * text "%Y-%m-%d %H:%M" spells for t and t is a real date-time in years 1..9999.
   */
  lemma ParseDateTimeIffSpelled(date: JValue, time: JValue, t: DateTime)
    ensures ParseDateTime(date, time) == Some(t) <==>
      Valid(t) && InPythonRange(t) &&
      exists y, mo, d, sp, h, mi :: Spells(Str(date) + " " + Str(time), t, y, mo, d, sp, h, mi)
  {
    StrptimeIffSpelled(Str(date) + " " + Str(time), t);
  }

  /** A date and time as the code expects them ("YYYY-MM-DD" and "HH:MM") always parse, to themselves. */
  lemma ParseDateTimeRoundTrip(t: DateTime)
    requires Valid(t) && InPythonRange(t)
    ensures ParseDateTime(JString(DateText(t)), JString(TimeText(t))) == Some(t)
  {
    StrptimeRoundTrip(t);
  }

  /** A date the extraction left out (None) never parses, whatever the time. */
  lemma MissingDateNeverParses(time: JValue)
    ensures ParseDateTime(JNull, time) == None
  {
  }

  /** timedelta(minutes=duration) takes an int, or a bool as 0 or 1; anything else here raises TypeError. */
  function DurationMinutes(duration: JValue): (m: Option<int>)
    ensures duration.JInt? ==> m == Some(duration.i)
    ensures duration.JBool? ==> m == Some(if duration.b then 1 else 0)
    ensures duration.JString? || duration.JNull? || duration.JOther? ==> m == None
  {
    match duration
    case JInt(i) => Some(i)
    case JBool(b) => Some(if b then 1 else 0)
    case _ => None
  }

  /**
   * The start and end of the event: the parsed date and time, and that plus
   * the duration in minutes, carried across days, months and years.
   */
  function EventWindow(date: JValue, time: JValue, duration: JValue): (r: Result<(DateTime, DateTime), PlanFailure>)
    ensures r == Err(InvalidDateTime) <==> ParseDateTime(date, time).None?
    ensures r.Ok? ==> Valid(r.value.0) && InPythonRange(r.value.0) && Valid(r.value.1) && InPythonRange(r.value.1)
    ensures r.Ok? ==> Some(r.value.0) == ParseDateTime(date, time)
    ensures r.Ok? ==> DurationMinutes(duration).Some? && Stamp(r.value.1) == Stamp(r.value.0) + DurationMinutes(duration).value
    ensures r.Ok? && DurationMinutes(duration).value > 0 ==> Before(r.value.0, r.value.1)
    ensures ParseDateTime(date, time).Some? && DurationMinutes(duration).Some? ==>
      (r.Ok? <==> InPythonRange(AddMinutes(ParseDateTime(date, time).value, DurationMinutes(duration).value)))
    ensures r == Err(RuntimeFault) <==>
      ParseDateTime(date, time).Some? &&
      (DurationMinutes(duration).None? || !InPythonRange(AddMinutes(ParseDateTime(date, time).value, DurationMinutes(duration).value)))
  {
    var start :- match ParseDateTime(date, time) case None => Err(InvalidDateTime) case Some(s) => Ok(s);
    var minutes :- match DurationMinutes(duration) case None => Err(RuntimeFault) case Some(m) => Ok(m);
    var end := AddMinutes(start, minutes);
    if !InPythonRange(end) then Err(RuntimeFault)
    else
      assert minutes > 0 ==> Before(start, end) by {
        if minutes > 0 { AddMinutesMovesForward(start, minutes); }
      }
      Ok((start, end))
  }

  /** The event body of create_event. */
  function BuildEvent(title: JValue, notes: JValue, start: DateTime, end: DateTime): (body: EventBody)
    requires Valid(start) && InPythonRange(start) && Valid(end) && InPythonRange(end)
    ensures body.summary == title && body.description == notes
    ensures body.start == EventTime(IsoFormat(start), DefaultTimeZone)
    ensures body.end == EventTime(IsoFormat(end), DefaultTimeZone)
    ensures body.reminders == DefaultReminders
  {
    EventBody(title, notes, EventTime(IsoFormat(start), DefaultTimeZone), EventTime(IsoFormat(end), DefaultTimeZone), DefaultReminders)
  }

  /** What the try block of create_event computes before the insert. */
  function PlanEvent(title: JValue, date: JValue, time: JValue, duration: JValue, notes: JValue): (r: Result<EventBody, PlanFailure>)
    ensures r.Err? <==> EventWindow(date, time, duration).Err?
    ensures r.Err? ==> r.error == EventWindow(date, time, duration).error
    ensures r.Ok? ==> r.value.summary == title && r.value.description == notes
    ensures r.Ok? ==> r.value.start.timeZone == DefaultTimeZone && r.value.end.timeZone == DefaultTimeZone
    ensures r.Ok? ==> r.value.reminders == DefaultReminders
  {
    var (start, end) :- EventWindow(date, time, duration);
    Ok(BuildEvent(title, notes, start, end))
  }

  /**
   * The body of a successful plan starts at the date and time given, in
   * isoformat(), and ends that many minutes later on the reference timeline.
   */
  lemma PlannedTimes(title: JValue, date: JValue, time: JValue, duration: JValue, notes: JValue)
    requires PlanEvent(title, date, time, duration, notes).Ok?
    ensures var body := PlanEvent(title, date, time, duration, notes).value;
      && ParseDateTime(date, time).Some?
      && DurationMinutes(duration).Some?
      && body.start.dateTime == IsoFormat(ParseDateTime(date, time).value)
      && var end := AddMinutes(ParseDateTime(date, time).value, DurationMinutes(duration).value);
         && InPythonRange(end)
         && body.end.dateTime == IsoFormat(end)
         && Stamp(end) == Stamp(ParseDateTime(date, time).value) + DurationMinutes(duration).value
  {
  }

  // ---------------------------------------------------------------------------
  // create_event
  // ---------------------------------------------------------------------------

  /**
   * The result of create_event, given whether the API client exists, the
   * inputs, what the insert does, and the text the Python runtime gives the
   * exception raised before the insert (if any). Every path yields a result.
   */
  function EventCreation(
    configured: bool, title: JValue, date: JValue, time: JValue, duration: JValue, notes: JValue,
    language: JValue, insert: InsertOutcome, runtimeDetail: string): (r: EventResult)
    ensures r.success <==> configured && PlanEvent(title, date, time, duration, notes).Ok? && insert.Created?
    ensures r.success ==> r.eventLink == insert.htmlLink && r.eventId == insert.id
    ensures r.success ==> r.message == ConfirmationText(language, date, time, duration, title)
    ensures !r.success ==> r.eventLink == None && r.eventId == None
    ensures !configured ==> r.message == NotConfiguredText(language)
    ensures configured && PlanEvent(title, date, time, duration, notes) == Err(InvalidDateTime) ==>
      r.message == UnexpectedErrorText(language, InvalidDateTimeText(runtimeDetail))
    ensures configured && PlanEvent(title, date, time, duration, notes) == Err(RuntimeFault) ==>
      r.message == UnexpectedErrorText(language, runtimeDetail)
    ensures configured && PlanEvent(title, date, time, duration, notes).Ok? && insert.HttpFailure? ==>
      r.message == ApiErrorText(language, insert.detail)
    ensures configured && PlanEvent(title, date, time, duration, notes).Ok? && insert.OtherFailure? ==>
      r.message == UnexpectedErrorText(language, insert.detail)
    ensures StartsWith(r.message, if r.success then SuccessMark else FailureMark)
  {
    if !configured then
      EventResult(false, NotConfiguredText(language), None, None)
    else
      match PlanEvent(title, date, time, duration, notes)
      case Err(InvalidDateTime) =>
        EventResult(false, UnexpectedErrorText(language, InvalidDateTimeText(runtimeDetail)), None, None)
      case Err(RuntimeFault) =>
        EventResult(false, UnexpectedErrorText(language, runtimeDetail), None, None)
      case Ok(_) =>
        match insert
        case Created(id, link) =>
          EventResult(true, ConfirmationText(language, date, time, duration, title), link, id)
        case HttpFailure(detail) =>
          EventResult(false, ApiErrorText(language, detail), None, None)
        case OtherFailure(detail) =>
          EventResult(false, UnexpectedErrorText(language, detail), None, None)
  }

  /**
   * A date "YYYY-MM-DD", a time "HH:MM" and an int duration whose end stays
   * within the years 1..9999 are booked: with a client and a created event,
   * create_event succeeds with the confirmation, the link and the id.
   */
  lemma DocumentedInputsBook(
    t: DateTime, minutes: int, title: JValue, notes: JValue, language: JValue,
    id: Option<string>, link: Option<string>, runtimeDetail: string)
    requires Valid(t) && InPythonRange(t) && InPythonRange(AddMinutes(t, minutes))
    ensures PlanEvent(title, JString(DateText(t)), JString(TimeText(t)), JInt(minutes), notes).Ok?
    ensures EventCreation(true, title, JString(DateText(t)), JString(TimeText(t)), JInt(minutes), notes,
                          language, Created(id, link), runtimeDetail)
         == EventResult(true, ConfirmationText(language, JString(DateText(t)), JString(TimeText(t)), JInt(minutes), title), link, id)
  {
    ParseDateTimeRoundTrip(t);
  }

  /** An appointment that ends on the day it starts can always be planned. */
  lemma SameDayAppointmentPlans(t: DateTime, minutes: int, title: JValue, notes: JValue)
    requires Valid(t) && InPythonRange(t)
    requires 0 <= minutes && t.hour * 60 + t.minute + minutes < MinutesPerDay
    ensures PlanEvent(title, JString(DateText(t)), JString(TimeText(t)), JInt(minutes), notes).Ok?
  {
    SameDayKeepsDate(t, minutes);
    DocumentedInputsBook(t, minutes, title, notes, JString("english"), None, None, "");
  }

  /** An invalid date or time is reported through the unexpected-error wrapper, never the API-error one. */
  lemma InvalidDateTimeIsUnexpected(
    title: JValue, date: JValue, time: JValue, duration: JValue, notes: JValue,
    language: JValue, insert: InsertOutcome, runtimeDetail: string)
    requires ParseDateTime(date, time).None?
    ensures EventCreation(true, title, date, time, duration, notes, language, insert, runtimeDetail)
      == EventResult(false, UnexpectedErrorText(language, InvalidDateTimeText(runtimeDetail)), None, None)
  {
  }

  /** The language changes the wording only: success, link and id do not depend on it. */
  lemma LanguageOnlyChangesWording(
    configured: bool, title: JValue, date: JValue, time: JValue, duration: JValue, notes: JValue,
    language1: JValue, language2: JValue, insert: InsertOutcome, runtimeDetail: string)
    ensures var r1 := EventCreation(configured, title, date, time, duration, notes, language1, insert, runtimeDetail);
            var r2 := EventCreation(configured, title, date, time, duration, notes, language2, insert, runtimeDetail);
            r1.success == r2.success && r1.eventLink == r2.eventLink && r1.eventId == r2.eventId
  {
  }

  /** Every language other than "hebrew" gets exactly the English result. */
  lemma NonHebrewIsEnglish(
    configured: bool, title: JValue, date: JValue, time: JValue, duration: JValue, notes: JValue,
    language: JValue, insert: InsertOutcome, runtimeDetail: string)
    requires !IsHebrew(language)
    ensures EventCreation(configured, title, date, time, duration, notes, language, insert, runtimeDetail)
         == EventCreation(configured, title, date, time, duration, notes, JString("english"), insert, runtimeDetail)
  {
  }

  // ---------------------------------------------------------------------------
  // The helper object and the module-level instance
  // ---------------------------------------------------------------------------

  /** The built Calendar API client, seen through the insert requests it has been sent. */
  class CalendarService {
    var requests: seq<InsertRequest>

    constructor ()
      ensures requests == []
    {
      requests := [];
    }
  }

  class GoogleCalendarHelper {
    const calendarId: string
    /** The API client; null when _initialize_service found no usable credentials or failed to build one. */
    const service: CalendarService?

    /** __init__ with _initialize_service; whether the credentials load and the client builds is a parameter. */
    constructor (calendarId: string, credentialsUsable: bool)
      ensures this.calendarId == calendarId
      ensures service != null <==> credentialsUsable
      ensures service != null ==> fresh(service) && service.requests == []
    {
      this.calendarId := calendarId;
      if credentialsUsable {
        service := new CalendarService();
      } else {
        service := null;
      }
    }

    /**
     * create_event: no request is sent without a client or when the date,
     * time or duration cannot be used; otherwise exactly one request carrying
     * the planned body is sent, whatever the provider then does with it.
     */
    method CreateEvent(
      title: JValue, date: JValue, time: JValue, duration: JValue, notes: JValue,
      language: JValue, insert: InsertOutcome, runtimeDetail: string) returns (r: EventResult)
      modifies service
      ensures r == EventCreation(service != null, title, date, time, duration, notes, language, insert, runtimeDetail)
      ensures service != null ==>
        service.requests == old(service.requests) +
          (match PlanEvent(title, date, time, duration, notes)
           case Ok(body) => [InsertRequest(calendarId, body)]
           case Err(_) => [])
    {
      if service == null {
        return EventResult(false, NotConfiguredText(language), None, None);
      }
      var plan := PlanEvent(title, date, time, duration, notes);
      match plan {
        case Err(InvalidDateTime) =>
          r := EventResult(false, UnexpectedErrorText(language, InvalidDateTimeText(runtimeDetail)), None, None);
        case Err(RuntimeFault) =>
          r := EventResult(false, UnexpectedErrorText(language, runtimeDetail), None, None);
        case Ok(body) =>
          service.requests := service.requests + [InsertRequest(calendarId, body)];
          match insert {
            case Created(id, link) =>
              r := EventResult(true, ConfirmationText(language, date, time, duration, title), link, id);
            case HttpFailure(detail) =>
              r := EventResult(false, ApiErrorText(language, detail), None, None);
            case OtherFailure(detail) =>
              r := EventResult(false, UnexpectedErrorText(language, detail), None, None);
          }
      }
    }
  }

  /** The module-level variable _calendar_helper, starting as None. */
  class HelperRegistry {
    var instance: GoogleCalendarHelper?

    constructor ()
      ensures instance == null
    {
      instance := null;
    }

    /** Whether the helper the next get_calendar_helper() returns has an API client. */
    function NextConfigured(credentialsUsable: bool): bool
      reads this
    {
      if instance != null then instance.service != null else credentialsUsable
    }

    /** The insert requests the current instance's API client has been sent; none without a client. */
    function Requests(): seq<InsertRequest>
      reads this, ServiceFrame()
    {
      if instance != null && instance.service != null then instance.service.requests else []
    }

    /** The API client of the current instance, which create_event may send requests to. */
    function ServiceFrame(): set<object>
      reads this
    {
      if instance != null && instance.service != null then {instance.service} else {}
    }

    /** get_calendar_helper: build the helper on the first call; return that same instance on every call. */
    method GetCalendarHelper(calendarId: string, credentialsUsable: bool) returns (h: GoogleCalendarHelper)
      modifies this
      ensures instance == h
      ensures old(instance) != null ==> h == old(instance)
      ensures old(instance) == null ==> fresh(h) && h.calendarId == calendarId
      ensures h.service != null <==> old(NextConfigured(credentialsUsable))
      ensures old(instance) == null && h.service != null ==> fresh(h.service) && h.service.requests == []
    {
      if instance == null {
        instance := new GoogleCalendarHelper(calendarId, credentialsUsable);
      }
      h := instance;
    }
  }

  /** Two calls hand out one helper, built at most once. */
  method GetCalendarHelperTwice(registry: HelperRegistry, calendarId: string, firstUsable: bool, secondUsable: bool)
    returns (h1: GoogleCalendarHelper, h2: GoogleCalendarHelper)
    modifies registry
    ensures h1 == h2 && registry.instance == h1
    ensures old(registry.instance) != null ==> h1 == old(registry.instance)
    ensures h2.service != null <==> old(registry.NextConfigured(firstUsable))
  {
    h1 := registry.GetCalendarHelper(calendarId, firstUsable);
    h2 := registry.GetCalendarHelper(calendarId, secondUsable);
  }
}
