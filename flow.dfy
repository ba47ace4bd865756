/**
 * AppointmentFlow (crew.py): one run classifies the message, takes exactly
 * one of three branches, and returns state.response from the join step.
 *
 * The language-model tasks are represented by their raw replies, json.loads
 * by a partial function, and the YAML message catalog by two tables keyed
 * by language name; all of them arrive in Collaborators and Catalog.
 */
module Flow {
  import opened Wrappers
  import opened Text
  import opened Json
  import opened CalendarHelper

  /** AppointmentState: the record every step of the flow updates. */
  datatype AppointmentState = AppointmentState(
    userMessage: string,
    userPhone: string,
    category: string,
    language: JValue,
    calendarData: Option<JObject>,
    response: string,
    eventCreated: bool)

  /** The field defaults of AppointmentState. */
  const DefaultState: AppointmentState := AppointmentState("", "", "", JString("english"), None, "", false)

  /** The branches select_path chooses between: "appointment", "general", "unrelated". */
  datatype Path = Appointment | General | Unrelated

  /** An exception raised inside a step; it ends the run without a response. */
  datatype Fault =
    | CategoryNotText(category: JValue)                    // .upper() on a category that is not a string
    | MissingLocalization(table: string, language: JValue)  // the catalog lookup by language raised KeyError

  /** MESSAGES_CONFIG['responses']: the 'extraction_failed' and 'unrelated' texts, by language name. */
  datatype Catalog = Catalog(extractionFailed: map<string, string>, unrelated: map<string, string>)

  /** The outputs of everything outside the core that one run consults. */
  datatype Collaborators = Collaborators(
    routerReply: string,                // str(crew.kickoff()) of the routing task
    extractorReply: string,             // str(crew.kickoff()) of the extraction task
    generalReply: string,               // str(crew.kickoff()) of the general-answer task
    loads: string -> Option<JObject>,   // json.loads, None where it raises
    calendarId: string,                 // GOOGLE_CALENDAR_ID
    credentialsUsable: bool,            // whether a newly built helper gets an API client
    insert: InsertOutcome,              // what the Calendar API insert does
    runtimeDetail: string)              // str() of an exception the Python runtime raises before the insert

  // ---------------------------------------------------------------------------
  // Routing
  // ---------------------------------------------------------------------------

  /** select_path: "APPOINTMENT" is looked for first, then "GENERAL"; anything else is unrelated. */
  function SelectPath(category: string): (p: Path)
    ensures p == Appointment <==> exists i :: OccursAt(category, "APPOINTMENT", i)
    ensures p == General <==>
      (!exists i :: OccursAt(category, "APPOINTMENT", i)) && (exists i :: OccursAt(category, "GENERAL", i))
    ensures p == Unrelated <==>
      (!exists i :: OccursAt(category, "APPOINTMENT", i)) && (!exists i :: OccursAt(category, "GENERAL", i))
  {
    if Contains(category, "APPOINTMENT") then Appointment
    else if Contains(category, "GENERAL") then General
    else Unrelated
  }

  /**
   * The upper-case word occurs in s at index i in any mix of ASCII case: each
   * character is the word's own, or the lower-case form of its letter.
   */
  predicate OccursIgnoringCase(s: string, word: string, i: int)
  {
    && 0 <= i && i + |word| <= |s|
    && forall k :: 0 <= k < |word| ==>
         s[i + k] == word[k] || ('A' <= word[k] <= 'Z' && s[i + k] as int == word[k] as int + 32)
  }

  /**
   * Since the category is stored upper-cased, the classifier's letter case
   * does not matter: the appointment branch is taken exactly when
   * "appointment" occurs in the reply's category in any case.
   */
  lemma RoutingIgnoresCase(category: string, word: string)
    requires word == "APPOINTMENT" || word == "GENERAL"
    ensures (exists i :: OccursAt(Upper(category), word, i)) <==> (exists i :: OccursIgnoringCase(category, word, i))
  {
    forall i | OccursAt(Upper(category), word, i)
      ensures OccursIgnoringCase(category, word, i)
    {
      forall k | 0 <= k < |word|
        ensures category[i + k] == word[k] || ('A' <= word[k] <= 'Z' && category[i + k] as int == word[k] as int + 32)
      {
        assert Upper(category)[i..i + |word|][k] == word[k];
      }
    }
    forall i | OccursIgnoringCase(category, word, i)
      ensures OccursAt(Upper(category), word, i)
    {
      forall k | 0 <= k < |word|
        ensures Upper(category)[i..i + |word|][k] == word[k]
      {
        assert Upper(category)[i + k] == UpperChar(category[i + k]);
      }
    }
  }

  /** A classifier that answers in lower case still reaches the appointment branch. */
  lemma LowerCaseAppointmentRoutes()
    ensures CategoryOf(map["category" := JString("appointment")]) == Ok("APPOINTMENT")
    ensures SelectPath(Upper("appointment")) == Appointment
  {
    assert Upper("appointment") == "APPOINTMENT";
    assert OccursAt("APPOINTMENT", "APPOINTMENT", 0);
  }

  /** The category route_message stores: "category" upper-cased, or "UNRELATED" when the reply has none. */
  function CategoryOf(data: JObject): (r: Result<string, Fault>)
    ensures "category" !in data ==> r == Ok("UNRELATED")
    ensures "category" in data ==> (r.Ok? <==> data["category"].JString?)
    ensures "category" in data && r.Ok? ==> r.value == Upper(data["category"].s)
    ensures r.Err? ==> r.error == CategoryNotText(data["category"])
  {
    UpperKeepsUpperCase("UNRELATED");
    match Get(data, "category", JString("UNRELATED"))
    case JString(c) => Ok(Upper(c))
    case other => Err(CategoryNotText(other))
  }

  /** The language route_message stores: "language" as given, or "english" when the reply has none. */
  function LanguageOf(data: JObject): (language: JValue)
    ensures "language" !in data ==> language == JString("english")
    ensures "language" in data ==> language == data["language"]
  {
    Get(data, "language", JString("english"))
  }

  /** A classifier reply without a category routes to the unrelated branch. */
  lemma MissingCategoryIsUnrelated(data: JObject)
    requires "category" !in data
    ensures CategoryOf(data) == Ok("UNRELATED")
    ensures SelectPath(CategoryOf(data).value) == Unrelated
  {
    var c := "UNRELATED";
    forall i
      ensures !OccursAt(c, "GENERAL", i)
    {
      AbsentInitialNeverOccurs(c, "GENERAL", i);
    }
    assert !exists i :: OccursAt(c, "APPOINTMENT", i);
  }

  // ---------------------------------------------------------------------------
  // The steps, as functions of the state
  // ---------------------------------------------------------------------------

  /** MESSAGES_CONFIG['responses'][table][language]: a plain dict index. */
  function Localize(table: map<string, string>, language: JValue): (r: Option<string>)
    ensures r.Some? <==> language.JString? && language.s in table
    ensures r.Some? ==> r.value == table[language.s]
  {
    match language
    case JString(l) => if l in table then Some(table[l]) else None
    case _ => None
  }

  /** route_message: store the category and the language of the decoded classifier reply. */
  function Routed(s: AppointmentState, data: JObject): (r: Result<AppointmentState, Fault>)
    ensures r.Ok? <==> CategoryOf(data).Ok?
    ensures r.Ok? ==> r.value == s.(category := CategoryOf(data).value, language := LanguageOf(data))
  {
    var category :- CategoryOf(data);
    Ok(s.(category := category, language := LanguageOf(data)))
  }

  /** Nothing usable was extracted: calendar_data is None or the empty dict. */
  predicate ExtractionEmpty(s: AppointmentState)
  {
    s.calendarData.None? || s.calendarData.value == map[]
  }

  /** The arguments create_calendar_event passes to create_event. */
  datatype EventArgs = EventArgs(title: JValue, date: JValue, time: JValue, duration: JValue, notes: JValue)

  /** The extracted fields, with 'Appointment', None, None, 60 and '' for the missing ones. */
  function ArgsOf(data: JObject): EventArgs
  {
    EventArgs(
      Get(data, "title", JString("Appointment")),
      Get(data, "date", JNull),
      Get(data, "time", JNull),
      Get(data, "duration", JInt(60)),
      Get(data, "notes", JString("")))
  }

  /** The result of the create_event call of create_calendar_event. */
  function HelperResult(data: JObject, language: JValue, configured: bool, insert: InsertOutcome, runtimeDetail: string): EventResult
  {
    var a := ArgsOf(data);
    EventCreation(configured, a.title, a.date, a.time, a.duration, a.notes, language, insert, runtimeDetail)
  }

  /**
   * get_calendar_helper().create_event(...) on the fields create_calendar_event
   * takes from the extraction, with its defaults.
   */
  method CreateEventWithHelper(
    registry: HelperRegistry, calendarId: string, credentialsUsable: bool, data: JObject, language: JValue,
    insert: InsertOutcome, runtimeDetail: string) returns (result: EventResult)
    modifies registry, registry.ServiceFrame()
    ensures result == HelperResult(data, language, old(registry.NextConfigured(credentialsUsable)), insert, runtimeDetail)
    ensures registry.instance != null
    ensures old(registry.instance) != null ==> registry.instance == old(registry.instance)
    ensures old(registry.instance) == null ==> registry.instance.calendarId == calendarId
    ensures registry.Requests() == old(registry.Requests()) +
      (if old(registry.NextConfigured(credentialsUsable)) then PlannedRequests(registry.instance.calendarId, data) else [])
  {
    var helper := registry.GetCalendarHelper(calendarId, credentialsUsable);
    var args := ArgsOf(data);
    result := helper.CreateEvent(args.title, args.date, args.time, args.duration, args.notes, language, insert, runtimeDetail);
  }

  /** The insert request that create_event sends for these fields, if the plan succeeds. */
  function PlannedRequests(calendarId: string, data: JObject): (requests: seq<InsertRequest>)
    ensures |requests| <= 1
    ensures |requests| == 1 <==> PlanEvent(ArgsOf(data).title, ArgsOf(data).date, ArgsOf(data).time, ArgsOf(data).duration, ArgsOf(data).notes).Ok?
    ensures |requests| == 1 ==> requests[0].calendarId == calendarId
  {
    var a := ArgsOf(data);
    match PlanEvent(a.title, a.date, a.time, a.duration, a.notes)
    case Ok(body) => [InsertRequest(calendarId, body)]
    case Err(_) => []
  }

  /**
   * create_calendar_event: the localized extraction-failed text when nothing
   * was extracted; otherwise success and message copied from the helper.
   */
  function Scheduled(s: AppointmentState, catalog: Catalog, configured: bool, insert: InsertOutcome, runtimeDetail: string)
    : (r: Result<AppointmentState, Fault>)
    ensures ExtractionEmpty(s) ==> (r.Ok? <==> Localize(catalog.extractionFailed, s.language).Some?)
    ensures ExtractionEmpty(s) && r.Ok? ==>
      r.value == s.(response := Localize(catalog.extractionFailed, s.language).value)
    ensures !ExtractionEmpty(s) ==> r.Ok?
    ensures !ExtractionEmpty(s) ==>
      var result := HelperResult(s.calendarData.value, s.language, configured, insert, runtimeDetail);
      r.value == s.(eventCreated := result.success, response := result.message)
  {
    if ExtractionEmpty(s) then
      match Localize(catalog.extractionFailed, s.language)
      case None => Err(MissingLocalization("extraction_failed", s.language))
      case Some(text) => Ok(s.(response := text))
    else
      var result := HelperResult(s.calendarData.value, s.language, configured, insert, runtimeDetail);
      Ok(s.(eventCreated := result.success, response := result.message))
  }

  /** handle_unrelated: the localized unrelated text. */
  function Declined(s: AppointmentState, catalog: Catalog): (r: Result<AppointmentState, Fault>)
    ensures r.Ok? <==> Localize(catalog.unrelated, s.language).Some?
    ensures r.Ok? ==> r.value == s.(response := Localize(catalog.unrelated, s.language).value)
  {
    match Localize(catalog.unrelated, s.language)
    case None => Err(MissingLocalization("unrelated", s.language))
    case Some(text) => Ok(s.(response := text))
  }

  /**
   * One run of the flow from state s, where configured says whether the
   * helper that get_calendar_helper returns has an API client.
   */
  function Run(s: AppointmentState, env: Collaborators, catalog: Catalog, configured: bool): (r: Result<AppointmentState, Fault>)
    ensures r.Ok? ==> r.value.userMessage == s.userMessage && r.value.userPhone == s.userPhone
    ensures r.Ok? ==> CategoryOf(ParseJson(env.routerReply, env.loads)) == Ok(r.value.category)
    ensures CategoryOf(ParseJson(env.routerReply, env.loads)).Err? ==> r == Err(CategoryOf(ParseJson(env.routerReply, env.loads)).error)
  {
    var routed :- Routed(s, ParseJson(env.routerReply, env.loads));
    Branch(routed, env, catalog, configured)
  }

  /** The branch select_path names for a routed state, up to the join. */
  function Branch(routed: AppointmentState, env: Collaborators, catalog: Catalog, configured: bool): (r: Result<AppointmentState, Fault>)
    ensures r.Ok? ==>
      && r.value.userMessage == routed.userMessage && r.value.userPhone == routed.userPhone
      && r.value.category == routed.category && r.value.language == routed.language
    ensures r.Ok? && SelectPath(routed.category) != Appointment ==>
      r.value.calendarData == routed.calendarData && r.value.eventCreated == routed.eventCreated
    ensures SelectPath(routed.category) == General ==> r == Ok(routed.(response := env.generalReply))
    ensures SelectPath(routed.category) == Appointment ==>
      r.Ok? ==> r.value.calendarData == Some(ParseJson(env.extractorReply, env.loads))
  {
    match SelectPath(routed.category)
    case Appointment =>
      Scheduled(routed.(calendarData := Some(ParseJson(env.extractorReply, env.loads))),
                catalog, configured, env.insert, env.runtimeDetail)
    case General => Ok(routed.(response := env.generalReply))
    case Unrelated => Declined(routed, catalog)
  }

  /** Whether a run reaches get_calendar_helper: the appointment branch, with something extracted. */
  predicate ReachesCalendar(env: Collaborators)
  {
    var category := CategoryOf(ParseJson(env.routerReply, env.loads));
    && category.Ok?
    && SelectPath(category.value) == Appointment
    && ParseJson(env.extractorReply, env.loads) != map[]
  }

  /** What process_whatsapp_message returns: the final response, from a fresh state. */
  function Reply(message: string, phone: string, env: Collaborators, catalog: Catalog, configured: bool): Result<string, Fault>
  {
    var final :- Run(DefaultState.(userMessage := message, userPhone := phone), env, catalog, configured);
    Ok(final.response)
  }

  // ---------------------------------------------------------------------------
  // Properties of a run
  // ---------------------------------------------------------------------------

  /**
   * A classifier reply that yields nothing (no braces, or text json.loads
   * rejects) routes to the unrelated branch in English.
   */
  lemma UnparsableClassificationIsUnrelated(s: AppointmentState, env: Collaborators, catalog: Catalog, configured: bool)
    requires ParseJson(env.routerReply, env.loads) == map[]
    ensures "english" in catalog.unrelated ==>
      Run(s, env, catalog, configured)
        == Ok(s.(category := "UNRELATED", language := JString("english"), response := catalog.unrelated["english"]))
    ensures "english" !in catalog.unrelated ==>
      Run(s, env, catalog, configured) == Err(MissingLocalization("unrelated", JString("english")))
  {
    MissingCategoryIsUnrelated(map[]);
  }

  /** On the general branch the answer is returned verbatim and nothing else changes but the routing fields. */
  lemma GeneralAnswerIsVerbatim(s: AppointmentState, env: Collaborators, catalog: Catalog, configured: bool)
    requires Routed(s, ParseJson(env.routerReply, env.loads)).Ok?
    requires SelectPath(CategoryOf(ParseJson(env.routerReply, env.loads)).value) == General
    ensures Run(s, env, catalog, configured).Ok?
    ensures Run(s, env, catalog, configured).value.response == env.generalReply
    ensures Run(s, env, catalog, configured).value.eventCreated == s.eventCreated
    ensures Run(s, env, catalog, configured).value.calendarData == s.calendarData
  {
  }

  /**
   * On the appointment branch with nothing extracted, the response is the
   * extraction-failed text for the language and no event is reported.
   */
  lemma ExtractionFailureSkipsCalendar(s: AppointmentState, env: Collaborators, catalog: Catalog, configured: bool)
    requires Routed(s, ParseJson(env.routerReply, env.loads)).Ok?
    requires SelectPath(CategoryOf(ParseJson(env.routerReply, env.loads)).value) == Appointment
    requires ParseJson(env.extractorReply, env.loads) == map[]
    ensures var language := LanguageOf(ParseJson(env.routerReply, env.loads));
      && (Run(s, env, catalog, configured).Ok? <==> Localize(catalog.extractionFailed, language).Some?)
      && (Run(s, env, catalog, configured).Ok? ==>
            && Run(s, env, catalog, configured).value.response == Localize(catalog.extractionFailed, language).value
            && Run(s, env, catalog, configured).value.eventCreated == s.eventCreated)
  {
  }

  /**
   * On the appointment branch with fields extracted, event_created is the
   * helper's success and the response is its message, with the defaults
   * 'Appointment', 60 and '' for a missing title, duration and notes.
   */
  lemma EventCreatedMirrorsHelper(s: AppointmentState, env: Collaborators, catalog: Catalog, configured: bool)
    requires Routed(s, ParseJson(env.routerReply, env.loads)).Ok?
    requires SelectPath(CategoryOf(ParseJson(env.routerReply, env.loads)).value) == Appointment
    requires ParseJson(env.extractorReply, env.loads) != map[]
    ensures var data := ParseJson(env.extractorReply, env.loads);
      var language := LanguageOf(ParseJson(env.routerReply, env.loads));
      var result := HelperResult(data, language, configured, env.insert, env.runtimeDetail);
      && Run(s, env, catalog, configured).Ok?
      && Run(s, env, catalog, configured).value.eventCreated == result.success
      && Run(s, env, catalog, configured).value.response == result.message
  {
    var routed := Routed(s, ParseJson(env.routerReply, env.loads)).value;
    var extracted := routed.(calendarData := Some(ParseJson(env.extractorReply, env.loads)));
    assert Run(s, env, catalog, configured) == Scheduled(extracted, catalog, configured, env.insert, env.runtimeDetail);
  }

  /** A run reports a newly created event only on the appointment branch, with an API client, after a successful insert. */
  lemma EventCreatedOnlyByInsert(s: AppointmentState, env: Collaborators, catalog: Catalog, configured: bool)
    requires !s.eventCreated
    requires Run(s, env, catalog, configured).Ok? && Run(s, env, catalog, configured).value.eventCreated
    ensures SelectPath(Run(s, env, catalog, configured).value.category) == Appointment
    ensures configured && env.insert.Created?
    ensures ReachesCalendar(env) && |PlannedRequests(env.calendarId, ParseJson(env.extractorReply, env.loads))| == 1
  {
    var routed := Routed(s, ParseJson(env.routerReply, env.loads)).value;
    match SelectPath(routed.category) {
      case Appointment =>
        var extracted := routed.(calendarData := Some(ParseJson(env.extractorReply, env.loads)));
        if !ExtractionEmpty(extracted) {
          var data := extracted.calendarData.value;
          assert HelperResult(data, extracted.language, configured, env.insert, env.runtimeDetail).success;
        }
      case General =>
      case Unrelated =>
    }
  }

  /**
   * A run never raises when the classifier's category is absent or a string
   * and both catalog tables hold its language: then exactly one branch sets
   * the response.
   */
  lemma RunSucceedsWithCompleteCatalog(s: AppointmentState, env: Collaborators, catalog: Catalog, configured: bool)
    requires var data := ParseJson(env.routerReply, env.loads);
      && ("category" in data ==> data["category"].JString?)
      && LanguageOf(data).JString?
      && LanguageOf(data).s in catalog.extractionFailed
      && LanguageOf(data).s in catalog.unrelated
    ensures Run(s, env, catalog, configured).Ok?
  {
  }

  // ---------------------------------------------------------------------------
  // The flow object
  // ---------------------------------------------------------------------------

  class AppointmentFlow {
    var state: AppointmentState

    constructor ()
      ensures state == DefaultState
    {
      state := DefaultState;
    }

    /** route_message: decode the classifier reply, store the upper-cased category and the language. */
    method RouteMessage(routerReply: string, loads: string -> Option<JObject>) returns (outcome: Result<string, Fault>)
      modifies this
      ensures var r := Routed(old(state), ParseJson(routerReply, loads));
        && (r.Ok? ==> state == r.value && outcome == Ok(state.category))
        && (r.Err? ==> state == old(state) && outcome == Err(r.error))
    {
      var data := ParseJson(routerReply, loads);
      var category := Get(data, "category", JString("UNRELATED"));
      if !category.JString? {
        return Err(CategoryNotText(category));
      }
      state := state.(category := Upper(category.s));
      state := state.(language := Get(data, "language", JString("english")));
      outcome := Ok(state.category);
    }

    /** extract_datetime: store the decoded extractor reply. */
    method ExtractDatetime(extractorReply: string, loads: string -> Option<JObject>)
      modifies this
      ensures state == old(state).(calendarData := Some(ParseJson(extractorReply, loads)))
    {
      state := state.(calendarData := Some(ParseJson(extractorReply, loads)));
    }

    /**
     * create_calendar_event: with nothing extracted, the localized failure
     * text and no helper fetched; otherwise the helper's result, copied.
     */
    method CreateCalendarEvent(
      registry: HelperRegistry, catalog: Catalog, calendarId: string, credentialsUsable: bool,
      insert: InsertOutcome, runtimeDetail: string) returns (fault: Option<Fault>)
      modifies this, registry, registry.ServiceFrame()
      ensures var r := Scheduled(old(state), catalog, old(registry.NextConfigured(credentialsUsable)), insert, runtimeDetail);
        && (r.Ok? ==> state == r.value && fault == None)
        && (r.Err? ==> state == old(state) && fault == Some(r.error))
      ensures ExtractionEmpty(old(state)) ==>
        registry.instance == old(registry.instance) && registry.Requests() == old(registry.Requests())
      ensures !ExtractionEmpty(old(state)) ==>
        && registry.instance != null
        && (old(registry.instance) != null ==> registry.instance == old(registry.instance))
        && (old(registry.instance) == null ==> registry.instance.calendarId == calendarId)
        && registry.Requests() == old(registry.Requests()) +
             (if old(registry.NextConfigured(credentialsUsable))
              then PlannedRequests(registry.instance.calendarId, old(state).calendarData.value) else [])
    {
      if state.calendarData.None? || state.calendarData.value == map[] {
        var text := Localize(catalog.extractionFailed, state.language);
        if text.None? {
          return Some(MissingLocalization("extraction_failed", state.language));
        }
        state := state.(response := text.value);
        return None;
      }
      var result := CreateEventWithHelper(
        registry, calendarId, credentialsUsable, state.calendarData.value, state.language, insert, runtimeDetail);
      state := state.(eventCreated := result.success, response := result.message);
      fault := None;
    }

    /** answer_general_question: the general agent's reply becomes the response. */
    method AnswerGeneralQuestion(generalReply: string)
      modifies this
      ensures state == old(state).(response := generalReply)
    {
      state := state.(response := generalReply);
    }

    /** handle_unrelated: the localized unrelated text becomes the response. */
    method HandleUnrelated(catalog: Catalog) returns (fault: Option<Fault>)
      modifies this
      ensures var r := Declined(old(state), catalog);
        && (r.Ok? ==> state == r.value && fault == None)
        && (r.Err? ==> state == old(state) && fault == Some(r.error))
    {
      var text := Localize(catalog.unrelated, state.language);
      if text.None? {
        return Some(MissingLocalization("unrelated", state.language));
      }
      state := state.(response := text.value);
      fault := None;
    }

    /** send_to_whatsapp: the join of the three branches; it returns the response unchanged. */
    method SendToWhatsapp() returns (reply: string)
      ensures reply == state.response
    {
      reply := state.response;
    }

    /** The listeners after route_message: the one branch select_path names for the routed state. */
    method FollowPath(registry: HelperRegistry, catalog: Catalog, env: Collaborators) returns (fault: Option<Fault>)
      requires CategoryOf(ParseJson(env.routerReply, env.loads)) == Ok(state.category)
      modifies this, registry, registry.ServiceFrame()
      ensures var r := Branch(old(state), env, catalog, old(registry.NextConfigured(env.credentialsUsable)));
        && (r.Ok? ==> state == r.value && fault == None)
        && (r.Err? ==> fault == Some(r.error))
      ensures !ReachesCalendar(env) ==>
        registry.instance == old(registry.instance) && registry.Requests() == old(registry.Requests())
      ensures ReachesCalendar(env) ==>
        && registry.instance != null
        && (old(registry.instance) != null ==> registry.instance == old(registry.instance))
        && (old(registry.instance) == null ==> registry.instance.calendarId == env.calendarId)
        && registry.Requests() == old(registry.Requests()) +
             (if old(registry.NextConfigured(env.credentialsUsable))
              then PlannedRequests(registry.instance.calendarId, ParseJson(env.extractorReply, env.loads)) else [])
    {
      match SelectPath(state.category) {
        case Appointment =>
          ExtractDatetime(env.extractorReply, env.loads);
          fault := CreateCalendarEvent(registry, catalog, env.calendarId, env.credentialsUsable, env.insert, env.runtimeDetail);
        case General =>
          AnswerGeneralQuestion(env.generalReply);
          fault := None;
        case Unrelated =>
          fault := HandleUnrelated(catalog);
      }
    }

    /** kickoff: route, take the one branch select_path names, then join. */
    method Kickoff(registry: HelperRegistry, catalog: Catalog, env: Collaborators) returns (outcome: Result<string, Fault>)
      modifies this, registry, registry.ServiceFrame()
      ensures var r := Run(old(state), env, catalog, old(registry.NextConfigured(env.credentialsUsable)));
        && (r.Ok? ==> state == r.value && outcome == Ok(r.value.response))
        && (r.Err? ==> outcome == Err(r.error))
      ensures !ReachesCalendar(env) ==>
        registry.instance == old(registry.instance) && registry.Requests() == old(registry.Requests())
      ensures ReachesCalendar(env) ==>
        && registry.instance != null
        && (old(registry.instance) != null ==> registry.instance == old(registry.instance))
        && (old(registry.instance) == null ==> registry.instance.calendarId == env.calendarId)
        && registry.Requests() == old(registry.Requests()) +
             (if old(registry.NextConfigured(env.credentialsUsable))
              then PlannedRequests(registry.instance.calendarId, ParseJson(env.extractorReply, env.loads)) else [])
    {
      ghost var start := state;
      var routed := RouteMessage(env.routerReply, env.loads);
      if routed.Err? {
        return Err(routed.error);
      }
      ghost var configured := registry.NextConfigured(env.credentialsUsable);
      assert unchanged(registry, registry.ServiceFrame());
      assert Run(start, env, catalog, configured) == Branch(state, env, catalog, configured);
      var fault := FollowPath(registry, catalog, env);
      if fault.Some? {
        return Err(fault.value);
      }
      var reply := SendToWhatsapp();
      outcome := Ok(reply);
    }
  }

  /** process_whatsapp_message: a fresh flow for the message and phone; its final response is returned. */
  method ProcessWhatsappMessage(
    message: string, phone: string, registry: HelperRegistry, catalog: Catalog, env: Collaborators)
    returns (response: Result<string, Fault>)
    modifies registry, registry.ServiceFrame()
    ensures response == Reply(message, phone, env, catalog, old(registry.NextConfigured(env.credentialsUsable)))
    ensures !ReachesCalendar(env) ==>
      registry.instance == old(registry.instance) && registry.Requests() == old(registry.Requests())
    ensures ReachesCalendar(env) ==>
      && registry.instance != null
      && (old(registry.instance) != null ==> registry.instance == old(registry.instance))
      && (old(registry.instance) == null ==> registry.instance.calendarId == env.calendarId)
      && registry.Requests() == old(registry.Requests()) +
           (if old(registry.NextConfigured(env.credentialsUsable))
            then PlannedRequests(registry.instance.calendarId, ParseJson(env.extractorReply, env.loads)) else [])
  {
    var flow := new AppointmentFlow();
    flow.state := flow.state.(userMessage := message, userPhone := phone);
    response := flow.Kickoff(registry, catalog, env);
  }
}
