/** The backend's tables and its two write endpoints, `start_session` and
    `submit_answers`. The tables are maps held by one `Store` object; the model
    service and the JSON decoder are parameters. */
module Api {
  import opened Wrappers
  import opened Json
  import opened Formatter
  import opened Prompt
  import opened Recovery
  import opened Reconcile

  datatype Status = Pending | Analyzing | Analyzed

  /** A row of the tests table together with its questions. */
  datatype Test = Test(
    id: string,
    slug: string,
    title: string,
    description: string,
    systemPrompt: Option<string>,
    isActive: bool,
    questions: seq<Question>)

  /** A row of the sessions table. */
  datatype Session = Session(
    userId: int,
    testId: string,
    answers: map<string, string>,
    status: Status,
    userResult: Option<Json>,
    crmResult: Option<Json>)

  /** The `UserInfo` request body. */
  datatype UserInfo = UserInfo(
    telegramId: int,
    username: Option<string>,
    firstName: Option<string>,
    lastName: Option<string>)

  datatype ApiError =
    | TestNotFound                       // 404 "Тест не найден" from start_session
    | TestLookupFailed                   // submit_answers: no test row for the slug
    | NullSystemPrompt                   // `.replace` on a null system_prompt
    | ModelCallFailed                    // the model service raised or sent no text
    | ResponseUnusable(e: RecoveryError) // the reply could not be turned into an analysis
    | CrmNotAnObject                     // `crm_result.get` on a non-dict, after the session update

  datatype SubmitResponse = SubmitResponse(status: string, forUser: Json, forCrm: Json)

  const UserMessagePreamble: string := "Вот ответы пользователя на тест. Проведи анализ и верни JSON.\n\n"

  /** The user row after `upsert(..., on_conflict="id")`: the name columns are
      set, the derived profile of an existing row is kept. */
  function Upserted(users: map<int, User>, info: UserInfo): (u: User)
    ensures u.id == info.telegramId
    ensures u.username == info.username && u.firstName == info.firstName && u.lastName == info.lastName
    ensures u.profile == if info.telegramId in users then users[info.telegramId].profile else NoProfile
  {
    if info.telegramId in users then
      users[info.telegramId].(id := info.telegramId, username := info.username,
                              firstName := info.firstName, lastName := info.lastName)
    else
      User(info.telegramId, info.username, info.firstName, info.lastName, NoProfile)
  }

  /** The first session update: answers stored, status `analyzing`. An unknown
      id updates nothing. */
  function MarkAnalyzing(sessions: map<nat, Session>, id: nat, answers: map<string, string>): map<nat, Session>
  {
    if id in sessions then sessions[id := sessions[id].(answers := answers, status := Analyzing)] else sessions
  }

  /** The second session update: results stored, status `analyzed`. */
  function MarkAnalyzed(sessions: map<nat, Session>, id: nat, a: Analysis): map<nat, Session>
  {
    if id in sessions then
      sessions[id := sessions[id].(userResult := Some(a.forUser), crmResult := Some(a.forCrm), status := Analyzed)]
    else sessions
  }

  /** What the model call is given and what comes back of it: the cleaned
      system prompt, the user message around the transcript, and the
      recovered analysis. */
  function Analyze(test: Test, answers: map<string, string>,
                   model: (string, string) -> Option<string>,
                   parse: string -> Option<Json>): Result<Analysis, ApiError>
  {
    match test.systemPrompt
    case None => Failure(NullSystemPrompt)
    case Some(template) =>
      match model(Clean(template), UserMessagePreamble + Transcript(test.questions, answers))
      case None => Failure(ModelCallFailed)
      case Some(raw) =>
        match RecoverAnalysis(raw, parse)
        case Success(a) => Success(a)
        case Failure(e) => Failure(ResponseUnusable(e))
  }

  /** A stored session is consistent with its status: a pending session has
      no answers and no results, an analyzed one has both results. */
  predicate Consistent(s: Session)
  {
    && (s.status == Pending ==> s.answers == map[] && s.userResult.None? && s.crmResult.None?)
    && (s.status == Analyzed ==> s.userResult.Some? && s.crmResult.Some?)
  }

  function TestIds(tests: map<string, Test>): set<string>
  {
    set slug | slug in tests :: tests[slug].id
  }

  /** Every session is consistent and belongs to a known user and a known test. */
  predicate WellFormed(users: map<int, User>, tests: map<string, Test>, sessions: map<nat, Session>)
  {
    forall id :: id in sessions ==>
      && Consistent(sessions[id])
      && sessions[id].userId in users
      && sessions[id].testId in TestIds(tests)
  }

  /** Lines 110-162 of `submit_answers`: transcript, prompt clean-up, the
      model call and the recovery of its reply. */
  method RunAnalysis(test: Test, answers: map<string, string>,
                     model: (string, string) -> Option<string>, parse: string -> Option<Json>)
    returns (outcome: Result<Analysis, ApiError>)
    ensures outcome == Analyze(test, answers, model, parse)
  {
    var answersFormatted := FormatTranscript(test.questions, answers);

    if test.systemPrompt.None? {
      return Failure(NullSystemPrompt);
    }
    var cleanPrompt := CleanPrompt(test.systemPrompt.value);

    var reply := model(cleanPrompt, UserMessagePreamble + answersFormatted);
    if reply.None? {
      return Failure(ModelCallFailed);
    }
    var rawResponse := reply.value;

    var recovered := RecoverAnalysis(rawResponse, parse);
    if recovered.Failure? {
      return Failure(ResponseUnusable(recovered.error));
    }
    outcome := Success(recovered.value);
  }

  class Store {
    var users: map<int, User>
    var tests: map<string, Test>
    var sessions: map<nat, Session>
    var nextSessionId: nat

    ghost predicate Valid()
      reads this
    {
      && (forall id :: id in sessions ==> id < nextSessionId)
      && WellFormed(users, tests, sessions)
    }

    constructor (tests: map<string, Test>)
      ensures Valid()
      ensures this.tests == tests && users == map[] && sessions == map[]
    {
      this.tests := tests;
      users := map[];
      sessions := map[];
      nextSessionId := 0;
    }

    /** `start_session`: the user is upserted first; an unknown slug then fails
        with 404 and creates no session; otherwise a fresh pending session with
        no answers is inserted and its id returned. */
    method StartSession(info: UserInfo, testSlug: string) returns (r: Result<nat, ApiError>)
      requires Valid()
      modifies this
      ensures Valid()
      ensures tests == old(tests)
      ensures users == old(users)[info.telegramId := Upserted(old(users), info)]
      ensures r.Failure? <==> testSlug !in tests
      ensures r.Failure? ==> r.error == TestNotFound && sessions == old(sessions)
      ensures r.Success? ==>
        && r.value !in old(sessions)
        && sessions == old(sessions)[r.value := Session(info.telegramId, tests[testSlug].id, map[], Pending, None, None)]
    {
      users := users[info.telegramId := Upserted(users, info)];
      assert forall id :: id in sessions ==> sessions[id].userId in users;
      if testSlug !in tests {
        return Failure(TestNotFound);
      }
      var test := tests[testSlug];
      assert test.id in TestIds(tests);
      var id := nextSessionId;
      sessions := sessions[id := Session(info.telegramId, test.id, map[], Pending, None, None)];
      nextSessionId := nextSessionId + 1;
      r := Success(id);
    }

    /** `submit_answers`. The answers are stored with status `analyzing` before
        anything else; only a usable analysis moves the session to `analyzed`,
        and the user's profile is then overwritten from the CRM payload. */
    method SubmitAnswers(sessionId: nat, info: UserInfo, testSlug: string, answers: map<string, string>,
                         model: (string, string) -> Option<string>, parse: string -> Option<Json>)
      returns (r: Result<SubmitResponse, ApiError>)
      requires Valid()
      modifies this
      ensures Valid()
      ensures tests == old(tests) && nextSessionId == old(nextSessionId)
      ensures testSlug !in tests ==>
        r == Failure(TestLookupFailed) && sessions == MarkAnalyzing(old(sessions), sessionId, answers) && users == old(users)
      ensures testSlug in tests ==>
        var outcome := Analyze(tests[testSlug], answers, model, parse);
        && (outcome.Failure? ==>
              r == Failure(outcome.error) && sessions == MarkAnalyzing(old(sessions), sessionId, answers)
              && users == old(users))
        && (outcome.Success? ==>
              && sessions == MarkAnalyzed(MarkAnalyzing(old(sessions), sessionId, answers), sessionId, outcome.value)
              && (ProfileUpdate(outcome.value.forCrm).None? ==> r == Failure(CrmNotAnObject) && users == old(users))
              && (ProfileUpdate(outcome.value.forCrm).Some? ==>
                    && r == Success(SubmitResponse("ok", outcome.value.forUser, outcome.value.forCrm))
                    && users == ApplyUpdate(old(users), info.telegramId, ProfileUpdate(outcome.value.forCrm).value)))
    {
      MarkAnalyzingKeepsWellFormed(users, tests, sessions, sessionId, answers);
      sessions := MarkAnalyzing(sessions, sessionId, answers);

      if testSlug !in tests {
        return Failure(TestLookupFailed);
      }
      var test := tests[testSlug];
      var recovered := RunAnalysis(test, answers, model, parse);
      if recovered.Failure? {
        return Failure(recovered.error);
      }
      var userResult, crmResult := recovered.value.forUser, recovered.value.forCrm;

      MarkAnalyzedKeepsWellFormed(users, tests, sessions, sessionId, recovered.value);
      sessions := MarkAnalyzed(sessions, sessionId, recovered.value);

      var update := ProfileUpdate(crmResult);
      if update.None? {
        return Failure(CrmNotAnObject);
      }
      UsersUpdateKeepsWellFormed(users, tests, sessions, info.telegramId, update.value);
      users := ApplyUpdate(users, info.telegramId, update.value);

      r := Success(SubmitResponse("ok", userResult, crmResult));
    }
  }

  // ---------------------------------------------------------------------------
  // Properties of the session updates

  /** Storing the answers keeps a session's owner and test and leaves it
      `analyzing`; a submission that fails before the result update leaves
      the session there. */
  lemma MarkAnalyzingKeepsOwner(sessions: map<nat, Session>, id: nat, answers: map<string, string>)
    requires id in sessions
    ensures var s := MarkAnalyzing(sessions, id, answers)[id];
      && s.status == Analyzing && s.answers == answers
      && s.userId == sessions[id].userId && s.testId == sessions[id].testId
      && s.userResult == sessions[id].userResult && s.crmResult == sessions[id].crmResult
  {
  }

  /** The response of a successful submission carries exactly the values
      written to the session, which is then `analyzed`. */
  lemma ResponseMatchesStoredSession(sessions: map<nat, Session>, id: nat, answers: map<string, string>, a: Analysis)
    requires id in sessions
    ensures var s := MarkAnalyzed(MarkAnalyzing(sessions, id, answers), id, a)[id];
      && s.status == Analyzed && s.answers == answers
      && s.userResult == Some(a.forUser) && s.crmResult == Some(a.forCrm)
  {
  }

  /** Storing the answers keeps every stored session consistent. */
  lemma MarkAnalyzingKeepsWellFormed(users: map<int, User>, tests: map<string, Test>, sessions: map<nat, Session>,
                                     id: nat, answers: map<string, string>)
    requires WellFormed(users, tests, sessions)
    ensures WellFormed(users, tests, MarkAnalyzing(sessions, id, answers))
  {
  }

  /** Storing the results keeps every stored session consistent. */
  lemma MarkAnalyzedKeepsWellFormed(users: map<int, User>, tests: map<string, Test>, sessions: map<nat, Session>,
                                    id: nat, a: Analysis)
    requires WellFormed(users, tests, sessions)
    ensures WellFormed(users, tests, MarkAnalyzed(sessions, id, a))
  {
  }

  /** Overwriting a user's profile keeps every session's owner known. */
  lemma UsersUpdateKeepsWellFormed(users: map<int, User>, tests: map<string, Test>, sessions: map<nat, Session>,
                                   id: int, update: DerivedProfile)
    requires WellFormed(users, tests, sessions)
    ensures WellFormed(ApplyUpdate(users, id, update), tests, sessions)
  {
  }
}
