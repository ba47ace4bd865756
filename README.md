# WhatsApp appointment flow, modelled in Dafny

The system is a WhatsApp scheduling assistant. Each incoming message runs once
through `AppointmentFlow` (`crew.py`):

- a classifier model labels the message APPOINTMENT, GENERAL or UNRELATED and
  names its language;
- `select_path` picks one of three branches:
  - an appointment request is passed to an extractor model, then to
    `GoogleCalendarHelper.create_event`, which inserts an event in Google Calendar;
  - a general question is answered by a third model;
  - anything else gets a fixed localized reply;
- the text left in `state.response` is what the user receives.

The model consists of these modules:

- `Wrappers`: Option and Result.
- `Text`: the Python string built-ins the code relies on. These are `str()` of
  an int, `%02d`/`%04d`, ASCII `upper()`, the `in` operator on strings, and the
  `\s` class.
- `Json`: decoded values and `_parse_json`. `json.loads` itself is a parameter.
- `CivilTime`: naive datetimes on the proleptic Gregorian calendar. It covers:
  - `datetime.strptime(s, "%Y-%m-%d %H:%M")`, written out as the regular
    expression Python's `_strptime` builds for that format;
  - `+ timedelta(minutes=n)`, proved against a minute count since
    0001-01-01 00:00 that matches `toordinal()`;
  - `isoformat()`.
- `CalendarHelper`: `google_calendar_helper.py`. It has:
  - the result of `create_event` as a function of its inputs and of what the
    API does;
  - the helper object, whose API client records the insert requests it is sent;
  - the module-level singleton as a `HelperRegistry` object.
- `Flow`: `crew.py`. It has:
  - the state record;
  - every step as a function of the state, and the whole run as `Run`;
  - `AppointmentFlow` as a class whose step methods update `state` in place and
    are proved against those functions;
  - `process_whatsapp_message`.

Things the code does not do itself are inputs, gathered in `Flow.Collaborators`:

- the replies of the three language-model tasks;
- `json.loads`;
- whether the Google credentials load;
- the calendar id;
- what the Calendar API does with an insert;
- the text the Python runtime gives an exception.

The YAML message catalog is a `Flow.Catalog`.

The code leaves out some things a reader might expect of an appointment bot.
The model follows the code.

- There is no check for conflicting appointments. The helper inserts whatever
  it is given.
- There is no timezone conversion. `_parse_datetime` returns a naive datetime,
  even though its doc comment speaks of the Israel timezone. The wall-clock
  text goes to the API with the zone name `Asia/Jerusalem`
  (`config/settings.py:17`).
- Pydantic does not validate on assignment. So `state.language` holds whatever
  value the classifier's JSON gave, not necessarily a string. The model keeps
  it as a JSON value.
- A catalog lookup for a language the catalog lacks raises `KeyError`. A
  number, boolean or None as the language also raises `KeyError`; a list or
  object raises `TypeError`, since it cannot be hashed. The model treats every
  one of these as the same fault, which ends the run.

## Model

| member | source | states |
|---|---|---|
| Text.NatToDecimalRoundTrip | google_calendar_helper.py:148-158 | the decimal text `str()` gives a non-negative duration reads back as that number |
| Text.Upper | crew.py:102 | upper-casing keeps the length, maps each ASCII lower-case letter to its capital, and keeps every other character |
| Text.Contains | crew.py:114-116 | `t in s` holds exactly when t occurs in s at some index |
| Text.FirstIndexOf | crew.py:248 | the first index holding c, with no c before it, or None when c is absent |
| Text.LastIndexOf | crew.py:248 | the last index holding c, with no c after it, or None when c is absent |
| Json.Str | google_calendar_helper.py:148-188 | how a value appears when `str()` or an f-string renders it: a string as itself, an int as its decimal text, `True`/`False`, and `None` |
| Json.Get | crew.py:102-103 | `dict.get`: the stored value when the key is present, else the default |
| Json.BraceSpan | crew.py:248 | the greedy DOTALL match of `\{.*\}` runs from the first `{` to the last `}`; there is none exactly when no `{` precedes a `}` |
| Json.ParseJson | crew.py:245-253 | a reply with no brace span, or one the decoder rejects, gives the empty dict |
| Json.NoisyReply | crew.py:245-253 | a JSON object wrapped in text with no `{` before it and no `}` after it is decoded from exactly its own text |
| CivilTime.DaysInMonth | google_calendar_helper.py:211 | month lengths lie in 28..31, and 29 occurs exactly for February of a leap year |
| CivilTime.YearStep | google_calendar_helper.py:123 | the day count before year y+1 is the count before y plus the length of year y |
| CivilTime.DaysBeforeYearMonotone | google_calendar_helper.py:123 | later years start at least 365 days per year later |
| CivilTime.DaysBeforeMonthValue | google_calendar_helper.py:123 | the days before each month are the cumulative table 0, 31, 59, …, 334, plus one after February in a leap year |
| CivilTime.NextDay | google_calendar_helper.py:123 | the following calendar day, across month and year ends, is valid and one ordinal later |
| CivilTime.PrevDay | google_calendar_helper.py:123 | the preceding calendar day is valid and one ordinal earlier |
| CivilTime.AddDays | google_calendar_helper.py:123 | stepping k days keeps the time of day and moves the ordinal by exactly k |
| CivilTime.AddMinutes | google_calendar_helper.py:123 | `+ timedelta(minutes=m)` gives a valid datetime exactly m minutes later on the reference timeline |
| CivilTime.SameDayKeepsDate | google_calendar_helper.py:123 | adding minutes that stay within the day keeps the year, month and day |
| CivilTime.BeforeIffEarlierStamp | google_calendar_helper.py:123 | datetime comparison, field by field, agrees with the order of the reference timeline in both directions |
| CivilTime.AddMinutesMovesForward | google_calendar_helper.py:123 | adding a positive number of minutes gives a strictly later datetime |
| CivilTime.YearField | google_calendar_helper.py:211 | `%Y` matches exactly when the text starts with four digits; it consumes those four and reads their decimal value, at most 9999 |
| CivilTime.MonthField | google_calendar_helper.py:211 | a `%m` match consumes a prefix of the text that is a one- or two-digit numeral, and reads that numeral's value, a month in 1..12; the rest is left |
| CivilTime.DayField | google_calendar_helper.py:211 | a `%d` match consumes a one- or two-digit numeral, or a space and one digit, and reads the number it spells, a day in 1..31; the rest is left |
| CivilTime.HourField | google_calendar_helper.py:211 | a `%H` match consumes a one- or two-digit numeral and reads its value, an hour in 0..23; the rest is left |
| CivilTime.MinuteField | google_calendar_helper.py:211 | a `%M` match consumes a one- or two-digit numeral and reads its value, a minute in 0..59; the rest is left |
| CivilTime.MonthFieldReads | google_calendar_helper.py:211 | every numeral for a month 1..12, when no digit follows it, is consumed whole and read as that month |
| CivilTime.DayFieldReads | google_calendar_helper.py:211 | every numeral or space-padded digit for a day 1..31, when no digit follows it, is consumed whole and read as that day |
| CivilTime.HourFieldReads | google_calendar_helper.py:211 | every numeral for an hour 0..23, when no digit follows it, is consumed whole and read as that hour |
| CivilTime.MinuteFieldReads | google_calendar_helper.py:211 | every numeral for a minute 0..59, when no digit follows it, is consumed whole and read as that minute |
| CivilTime.Strptime | google_calendar_helper.py:211 | `datetime.strptime(s, "%Y-%m-%d %H:%M")`: a success is a real date with a valid time, in years 1..9999. Which texts succeed, and with what result, is stated by CivilTime.StrptimeIffSpelled |
| CivilTime.Spaces | google_calendar_helper.py:211 | the space of the format matches one or more whitespace characters |
| CivilTime.SpacesReads | google_calendar_helper.py:211 | the format's space consumes every whitespace character up to the first other character |
| CivilTime.SpelledParses | google_calendar_helper.py:208-213 | every text the format spells for a real datetime in years 1..9999 parses to that datetime |
| CivilTime.ParsedIsSpelled | google_calendar_helper.py:208-213 | every text that parses is exactly four year digits, `-`, a month numeral, `-`, a day numeral or padded digit, whitespace, an hour numeral, `:`, a minute numeral, with nothing after, spelling the result |
| CivilTime.StrptimeIffSpelled | google_calendar_helper.py:208-213 | `strptime` gives t exactly when t is a real datetime in years 1..9999 and the text is one the format spells for t; a `T` or other separator, a missing or three-digit field, or trailing text all fail |
| CivilTime.ParsedHoldsSpace | google_calendar_helper.py:208-213 | every text that parses contains whitespace, so the `T`-separated ISO form never parses |
| CivilTime.StrptimeOfFormatted | google_calendar_helper.py:208-213 | a valid datetime written as "YYYY-MM-DD HH:MM" parses back to itself when nothing follows, and fails when anything follows |
| CivilTime.TrailingTextRejected | google_calendar_helper.py:208-216 | any text left after the minutes makes the parse fail |
| CivilTime.StrptimeRoundTrip | google_calendar_helper.py:208-213 | every datetime written as "YYYY-MM-DD HH:MM" parses back to itself |
| CivilTime.IsoFormat | google_calendar_helper.py:130-134 | `isoformat()` of a minute-precision datetime is 19 characters: date, `T`, time, `:00` |
| CivilTime.IsoFormatReparses | google_calendar_helper.py:130-134 | the date and time parts of the isoformat text parse back to the same datetime |
| CalendarHelper.NotConfiguredText | google_calendar_helper.py:104-118 | the not-configured message starts with the failure mark in both languages |
| CalendarHelper.ConfirmationText | google_calendar_helper.py:146-158 | the confirmation starts with the success mark, contains the `str()` of the date, the time and the duration, and ends with the `str()` of the title, in both languages |
| CalendarHelper.ApiErrorText | google_calendar_helper.py:167-173 | the message is the "Error scheduling appointment:" wrapper (Hebrew or English) followed by exactly the error's text |
| CalendarHelper.UnexpectedErrorText | google_calendar_helper.py:182-188 | the message is the "Unexpected error:" wrapper (Hebrew or English) followed by exactly the exception's text |
| CalendarHelper.ErrorWrappersDiffer | google_calendar_helper.py:167-195 | in every language, an API-error message never equals an unexpected-error message, whatever the texts |
| CalendarHelper.ParseDateTime | google_calendar_helper.py:197-216 | `_parse_datetime` parses `f"{date_str} {time_str}"`: a success is a real datetime in years 1..9999. Which inputs succeed is stated by CalendarHelper.ParseDateTimeIffSpelled |
| CalendarHelper.ParseDateTimeIffSpelled | google_calendar_helper.py:197-216 | `_parse_datetime` gives t exactly when `f"{date_str} {time_str}"` is a text the format spells for t and t is a real datetime in years 1..9999 |
| CalendarHelper.ParseDateTimeRoundTrip | google_calendar_helper.py:197-213 | a date "YYYY-MM-DD" and time "HH:MM" in the documented formats always parse, to themselves |
| CalendarHelper.MissingDateNeverParses | google_calendar_helper.py:208-216 | a date the extraction left out (None) never parses, whatever the time |
| CalendarHelper.DurationMinutes | google_calendar_helper.py:123 | an int duration is taken as minutes, `True` as 1 and `False` as 0; a string, None, list or object is rejected, as `timedelta` raises TypeError |
| CalendarHelper.EventWindow | google_calendar_helper.py:120-123 | it fails with an invalid date/time exactly when parsing fails. It fails with a runtime fault exactly when parsing succeeds but the duration is not an int/bool or the end leaves years 1..9999. It succeeds exactly when the date parses, the duration is usable and the end is in range. Then both ends are valid, the end is the duration's minutes after the start, and it is strictly later for a positive duration |
| CalendarHelper.BuildEvent | google_calendar_helper.py:125-138 | the body carries title, notes, both ends in isoformat with Asia/Jerusalem, and the popup-30 / email-1440 reminders |
| CalendarHelper.PlanEvent | google_calendar_helper.py:120-138 | planning fails exactly when the window does, with the same reason; a plan carries title, notes, zone and reminders |
| CalendarHelper.PlannedTimes | google_calendar_helper.py:120-138 | a planned body starts at the parsed datetime and ends at that plus the duration, in isoformat |
| CalendarHelper.EventCreation | google_calendar_helper.py:81-195 | success exactly when a client exists, the date, time and duration are usable and the insert succeeds. Link and id are given only on success. Without a client: the not-configured text. An invalid date/time, a bad duration or an out-of-range end, and a non-HTTP insert failure: the unexpected-error wrapper. An HttpError: the API-error wrapper. Success: the confirmation |
| CalendarHelper.DocumentedInputsBook | google_calendar_helper.py:81-165 | a date "YYYY-MM-DD", a time "HH:MM" and an int duration whose end stays in range, with a client and a created event, give success with the confirmation, the link and the id |
| CalendarHelper.SameDayAppointmentPlans | google_calendar_helper.py:120-138 | an appointment that ends on the day it starts can always be planned |
| CalendarHelper.InvalidDateTimeIsUnexpected | google_calendar_helper.py:120-195 | an unparsable date or time is reported through the unexpected-error wrapper of "Invalid date/time format", never as an API error |
| CalendarHelper.LanguageOnlyChangesWording | google_calendar_helper.py:103-195 | success, link and id do not depend on the language |
| CalendarHelper.NonHebrewIsEnglish | google_calendar_helper.py:105-188 | every language other than "hebrew" gets exactly the English result |
| CalendarHelper.GoogleCalendarHelper.constructor | google_calendar_helper.py:36-79 | the helper keeps the calendar id; it has a fresh client with no requests exactly when the credentials are usable |
| CalendarHelper.GoogleCalendarHelper.CreateEvent | google_calendar_helper.py:81-195 | returns the result of EventCreation; it sends exactly one insert request, carrying the planned body, when a client exists and the plan succeeds, and none otherwise |
| CalendarHelper.HelperRegistry.GetCalendarHelper | google_calendar_helper.py:222-229 | the first call builds and stores the helper; later calls return that same instance; whether it has a client is fixed when it is built |
| CalendarHelper.GetCalendarHelperTwice | google_calendar_helper.py:222-229 | two calls return the same helper, configured as on the first call |
| Flow.SelectPath | crew.py:111-119 | appointment exactly when "APPOINTMENT" occurs in the category; general exactly when "GENERAL" occurs and "APPOINTMENT" does not; unrelated otherwise |
| Flow.RoutingIgnoresCase | crew.py:102-119 | after upper-casing, a keyword occurs in the category exactly when the classifier's text holds it with each letter in either ASCII case, stated character by character without Upper |
| Flow.LowerCaseAppointmentRoutes | crew.py:102-119 | a classifier reply `{"category": "appointment"}` is stored as "APPOINTMENT" and takes the appointment branch |
| Flow.CategoryOf | crew.py:102 | the category is "UNRELATED" when absent, the upper-cased text when it is a string, and a fault otherwise |
| Flow.LanguageOf | crew.py:103 | the language is the classifier's value, or "english" when absent |
| Flow.MissingCategoryIsUnrelated | crew.py:102-119 | a classifier reply without a category takes the unrelated branch |
| Flow.Localize | crew.py:156 | a catalog lookup succeeds exactly when the language is a string key of the table |
| Flow.Routed | crew.py:81-106 | routing faults exactly when the category is not text; otherwise it sets only category and language |
| Flow.Scheduled | crew.py:149-181 | with nothing extracted, only the response changes, to the extraction-failed text; otherwise event_created and response are the helper's success and message, with the defaults 'Appointment', None, 60 and '' |
| Flow.Declined | crew.py:211-217 | only the response changes, to the unrelated text; a fault when the language has no entry |
| Flow.Branch | crew.py:111-220 | the branch `select_path` names keeps message, phone, category and language. Only the appointment branch touches calendar_data and event_created, and it stores the decoded extraction. The general branch sets only the response, to the general agent's reply |
| Flow.Run | crew.py:69-240 | a run keeps the user's message and phone, and stores the classifier's category |
| Flow.UnparsableClassificationIsUnrelated | crew.py:98-119 | a classifier reply that decodes to nothing gives category UNRELATED, language english and the English unrelated text |
| Flow.GeneralAnswerIsVerbatim | crew.py:186-206 | on the general branch the answer is returned verbatim, and the calendar fields are untouched |
| Flow.ExtractionFailureSkipsCalendar | crew.py:149-157 | an empty extraction gives the extraction-failed text for the language, and no event is reported |
| Flow.EventCreatedMirrorsHelper | crew.py:159-174 | with fields extracted, event_created and the response are the helper's success and message for those fields |
| Flow.PlannedRequests | crew.py:159-170 | the fields extracted lead to at most one insert request for the calendar, and to exactly one when create_event can plan the event |
| Flow.EventCreatedOnlyByInsert | crew.py:149-174 | a run reports a new event only on the appointment branch, with an API client and a successful insert, and then exactly one insert request is planned |
| Flow.RunSucceedsWithCompleteCatalog | crew.py:81-217 | a run raises nothing when the category is absent or text and the language is a key of both catalog tables |
| Flow.AppointmentFlow.constructor | crew.py:47-55 | a new flow starts from the state defaults: empty texts, "english", no calendar data, no event |
| Flow.AppointmentFlow.RouteMessage | crew.py:81-106 | the state becomes the routed state and the category is returned; on a fault the state is untouched |
| Flow.AppointmentFlow.ExtractDatetime | crew.py:124-147 | only calendar_data changes, to the decoded extractor reply |
| Flow.CreateEventWithHelper | crew.py:161-170 | `get_calendar_helper().create_event(...)` on the extracted fields and their defaults returns the helper's result; the helper exists afterwards, is the old one when there was one, and its client's requests grow by exactly the planned request |
| Flow.AppointmentFlow.CreateCalendarEvent | crew.py:149-181 | the state becomes the scheduled state. With nothing extracted, the helper is not fetched and no request is sent. Otherwise the helper exists afterwards and its client's requests grow by exactly the planned request, when it has a client |
| Flow.AppointmentFlow.AnswerGeneralQuestion | crew.py:186-206 | only the response changes, to the general answer |
| Flow.AppointmentFlow.HandleUnrelated | crew.py:211-217 | the state becomes the declined state, or a fault leaves it untouched |
| Flow.AppointmentFlow.SendToWhatsapp | crew.py:222-240 | returns the response unchanged |
| Flow.AppointmentFlow.FollowPath | crew.py:111-220 | from a routed state, the one branch `select_path` names leaves the state Branch computes, or reports its fault. Unless the run reaches the calendar, the registry and requests are unchanged; otherwise exactly the planned request is added, when the helper has a client |
| Flow.AppointmentFlow.Kickoff | crew.py:69-240 | running the steps in order leaves the state Run computes and returns its response; a fault in any step ends the run. Off the appointment branch, or with nothing extracted, the registry and the requests are unchanged. Otherwise exactly the planned request is added, when the helper has a client |
| Flow.ProcessWhatsappMessage | crew.py:259-266 | the reply is the response of a run from a fresh state holding the message and phone; the registry and the insert requests change as for Kickoff |

## Left out

- The language-model calls (crewAI `Agent`, `Task`, `Crew.kickoff`) and the prompts built from `tasks.yaml` and today's date. They are external services. Their raw replies are inputs.
- Loading `agents.yaml`, `tasks.yaml` and `messages.yaml` is file I/O. The message tables are an input, `Flow.Catalog`. A load failure at import time is not modelled.
- `json.loads` is a parameter: any partial function from text to an object. JSON numbers with a fraction or an exponent are not represented. So a float duration, which `timedelta` would accept, cannot be expressed.
- Loading the credentials from the environment or from a file, and building the API client (`google_calendar_helper.py:43-79`), are I/O. Whether a new helper gets a client is the input `credentialsUsable`.
- The Google Calendar API is external. Its answer to an insert is the input `InsertOutcome`. The model records each request sent to the client, not what the provider stores.
- The texts of exceptions raised by `strptime`, `timedelta` and datetime addition come from the Python runtime. They are the input `runtimeDetail`.
- `print` logging and the commented-out Twilio call in `send_to_whatsapp` are output only. They do not affect the state.
- Concurrency: the model assumes one run at a time. The singleton and the flow are not thread-safe in the source either, and that is not modelled.
- `app.py` and the rest of `config/settings.py` are not part of this model. `GOOGLE_CALENDAR_ID` is an input. The import-time error when it is unset is not modelled.
- crewAI's trigger bookkeeping is not modelled. This covers which listener fires the join step, given the three stacked `@listen` decorators. `process_whatsapp_message` returns `state.response` whichever way the join fires, so the model runs the join once after the chosen branch.
- An exception raised inside a step ends `kickoff` and propagates to the caller. The model returns `Err(Fault)` and sends no reply.
- Text.Upper: maps only the ASCII letters. Python's `str.upper()` also maps other scripts, and for some characters changes the length (`ß` becomes `SS`).
- CivilTime.Strptime: accepts only ASCII digits in the positions `\d` reads. These positions belong to CivilTime.YearField, CivilTime.DayField, CivilTime.HourField and CivilTime.MinuteField, and to CivilTime.Numeral, which CivilTime.Spells uses. Python's `\d` also matches other Unicode decimal digits. CivilTime.MonthField is exact, since all its character classes are ASCII.
- CalendarHelper.DurationMinutes: represents a bool duration as 0 or 1 minutes. Every value other than an int or a bool is rejected. This covers lists, objects, strings and None; floats, which Python would accept, cannot be expressed.
