/** The strings and decisions of the Telegram bot: the web-app link of
    `/start` and of the retry button, the dispatch on the status of web-app
    data, and the `/profile` text. Sending, keyboards and HTTP are left out;
    each handler returns the replies it would send. */
module Bot {
  import opened Wrappers
  import opened Json
  import opened Text
  import opened Reconcile

  datatype TgUser = TgUser(id: int, username: Option<string>, firstName: Option<string>)

  datatype Button = Button(caption: string, url: string)

  /** One `message.answer` call: its text and an optional web-app button. */
  datatype Reply = Reply(text: string, button: Option<Button>)

  /** The replies a handler sends, or an exception escaping it (nothing sent). */
  datatype Handled = Sent(replies: seq<Reply>) | Raised

  /** `value or ""` for an optional name. */
  function OrEmpty(o: Option<string>): string
  {
    match o
    case Some(s) => s
    case None => ""
  }

  /** `f"{WEBAPP_URL}"`: an unset variable renders as "None". */
  function Shown(o: Option<string>): string
  {
    match o
    case Some(s) => s
    case None => "None"
  }

  const QueryHead: string := "?test=profile-v1&user_id="

  /** The web-app link, built the same way in `cmd_start` and in the retry
      button; names are inserted as they are, without percent-encoding. */
  function WebAppUrl(webappUrl: Option<string>, user: TgUser): string
  {
    Shown(webappUrl) + QueryHead + IntToString(user.id)
      + "&username=" + OrEmpty(user.username)
      + "&first_name=" + OrEmpty(user.firstName)
  }

  /** The base comes first, the first name last, and the user id sits right
      after the fixed query head, is ended by '&' and reads back as the id. */
  lemma WebAppUrlLayout(webappUrl: Option<string>, user: TgUser)
    ensures var url, k, id := WebAppUrl(webappUrl, user), |Shown(webappUrl)| + |QueryHead|, IntToString(user.id);
      && url[..k] == Shown(webappUrl) + QueryHead
      && k + |id| < |url| && url[k..k + |id|] == id && url[k + |id|] == '&'
      && ParseInt(url[k..k + |id|]) == user.id
      && url[|url| - |OrEmpty(user.firstName)|..] == OrEmpty(user.firstName)
      && url[|url| - |OrEmpty(user.firstName)| - 12..|url| - |OrEmpty(user.firstName)|] == "&first_name="
  {
    var url, k, id := WebAppUrl(webappUrl, user), |Shown(webappUrl)| + |QueryHead|, IntToString(user.id);
    var rest := "&username=" + OrEmpty(user.username) + "&first_name=" + OrEmpty(user.firstName);
    assert url == (Shown(webappUrl) + QueryHead) + id + rest;
    assert url[k..k + |id|] == id;
    assert url[k + |id|] == rest[0];
    IntToStringRoundTrip(user.id);
  }

  /** Without encoding, different names can give the same link: the query
      cannot always be read back into the names. */
  lemma NamesAreNotEncoded(webappUrl: Option<string>, id: int)
    ensures WebAppUrl(webappUrl, TgUser(id, Some("a&first_name=b"), Some("")))
         == WebAppUrl(webappUrl, TgUser(id, Some("a"), Some("b&first_name=")))
  {
  }

  // ---------------------------------------------------------------------------
  // /start

  const StartButtonLabel: string := "🪞 Пройти тест «Зеркало»"

  /** `cmd_start`: one greeting addressed by first name (or no name), with
      the button that opens the web app at the user's link. */
  function StartReply(webappUrl: Option<string>, user: TgUser): (r: Reply)
    ensures var greeting := "Привет, " + OrEmpty(user.firstName) + "!";
      |greeting| <= |r.text| && r.text[..|greeting|] == greeting
    ensures r.button == Some(Button(StartButtonLabel, WebAppUrl(webappUrl, user)))
  {
    Reply(
      "Привет, " + OrEmpty(user.firstName) + "! 👋\n\n"
        + "«*Зеркало*» — короткое исследование, которое поможет увидеть "
        + "скрытые стороны своей психики.\n\n"
        + "⏱ Займёт около 5-7 минут\n"
        + "✨ В конце получишь персональный разбор\n\n"
        + "Готов?",
      Some(Button(StartButtonLabel, WebAppUrl(webappUrl, user))))
  }

  // ---------------------------------------------------------------------------
  // Web-app data

  const ResultHeading: string := "🪞 *Твоё Зеркало*\n\n"
  const Apology: string := "Что-то пошло не так. Попробуй ещё раз."
  const ShareText: string := "Поделись этим тестом с кем-то близким 💙"
  const RetryButtonLabel: string := "🔄 Пройти ещё раз"
  const AnalysisErrorText: string := "Произошла ошибка при анализе. Попробуй пройти тест ещё раз."

  /** `f"{value}"`: a string as it is; any other value through Python's `str`,
      which is the parameter `render`. */
  function Str(v: Json, render: Json -> string): string
  {
    match v
    case JString(s) => s
    case _ => render(v)
  }

  /** `handle_webapp_data`: undecodable data gets one apology; a `completed`
      status gets the result and then the share message with a retry button;
      an `error` status gets one error message; any other status gets
      nothing. Decoded data that is not an object makes `.get` raise. */
  function HandleWebAppData(payload: string, user: TgUser, webappUrl: Option<string>,
                            parse: string -> Option<Json>, render: Json -> string): Handled
  {
    match parse(payload)
    case None => Sent([Reply(Apology, None)])
    case Some(JObject(data)) =>
      var status := Lookup(data, "status");
      if status == Some(JString("completed")) then
        var userResult := GetOr(data, "for_user", JString(""));
        Sent([
          Reply(ResultHeading + Str(userResult, render), None),
          Reply(ShareText, Some(Button(RetryButtonLabel, WebAppUrl(webappUrl, user))))])
      else if status == Some(JString("error")) then
        Sent([Reply(AnalysisErrorText, None)])
      else
        Sent([])
    case Some(_) => Raised
  }

  /** The four outcomes of web-app data, and the retry button of a completed
      test links to the very page `/start` links to. */
  lemma WebAppDataOutcomes(payload: string, user: TgUser, webappUrl: Option<string>,
                           parse: string -> Option<Json>, render: Json -> string)
    ensures var h := HandleWebAppData(payload, user, webappUrl, parse, render);
      && (parse(payload).None? ==> h == Sent([Reply(Apology, None)]))
      && (parse(payload).Some? && !parse(payload).value.JObject? ==> h == Raised)
      && (parse(payload).Some? && parse(payload).value.JObject? ==>
            var status := Lookup(parse(payload).value.members, "status");
            && h.Sent?
            && (status == Some(JString("completed")) ==>
                  |h.replies| == 2
                  && h.replies[0] == Reply(ResultHeading + Str(GetOr(parse(payload).value.members, "for_user", JString("")), render), None)
                  && h.replies[1].text == ShareText
                  && h.replies[1].button.Some?
                  && h.replies[1].button.value.url == StartReply(webappUrl, user).button.value.url)
            && (status == Some(JString("error")) ==> h.replies == [Reply(AnalysisErrorText, None)])
            && (status != Some(JString("completed")) && status != Some(JString("error")) ==> h.replies == []))
  {
  }

  // ---------------------------------------------------------------------------
  // /profile

  const Dash: string := "—"
  const TakeTestFirst: string := "Ты ещё не проходил тесты. Начни с /start"
  const CouldNotLoad: string := "Не удалось загрузить профиль." + " Попробуй позже."
  const ProfileHeading: string := "*Твой психографический профиль*\n\n"

  const VakLabels: map<string, string> :=
    map["visual" := "Визуал 👁", "audial" := "Аудиал 👂", "kinesthetic" := "Кинестетик 🤲"]
  const StressLabels: map<string, string> :=
    map["fight" := "Борьба ⚡", "flight" := "Бегство 🏃", "freeze" := "Замирание 🧊"]
  const DecisionLabels: map<string, string> :=
    map["logical" := "Логик 🧮", "emotional" := "Эмоциональный ❤️",
        "impulsive" := "Импульсивный ⚡", "deliberate" := "Взвешенный ⚖️"]

  /** `labels.get(value, '—')`: None when the value is a list or an object,
      which are unhashable and make the lookup raise. */
  function Label(labels: map<string, string>, v: Json): (r: Option<string>)
    ensures r.None? <==> v.JArray? || v.JObject?
    ensures r.Some? && v.JString? && v.s in labels ==> r.value == labels[v.s]
    ensures r.Some? && !(v.JString? && v.s in labels) ==> r.value == Dash
  {
    match v
    case JArray(_) => None
    case JObject(_) => None
    case JString(s) => Some(if s in labels then labels[s] else Dash)
    case _ => Some(Dash)
  }

  /** The strings of a list whose items are all strings. */
  function StringItems(items: seq<Json>): (r: seq<string>)
    requires forall i :: 0 <= i < |items| ==> items[i].JString?
    ensures |r| == |items| && forall i :: 0 <= i < |r| ==> r[i] == items[i].s
  {
    if items == [] then [] else [items[0].s] + StringItems(items[1..])
  }

  /** A string iterated as one-character strings. */
  function Chars(s: string): (r: seq<string>)
    ensures |r| == |s| && forall i :: 0 <= i < |r| ==> r[i] == [s[i]]
  {
    if s == [] then [] else [[s[0]]] + Chars(s[1..])
  }

  /** `", ".join(tags) if tags else "—"`. Joining a string joins its
      characters, joining an object joins its keys; a list with a non-string
      item, a number or `true` make `join` raise. */
  function TagsText(tags: Json): (r: Option<string>)
    ensures !Truthy(tags) ==> r == Some(Dash)
    ensures tags.JArray? && tags.items != [] && (forall i :: 0 <= i < |tags.items| ==> tags.items[i].JString?) ==>
      r == Some(Join(StringItems(tags.items), ", "))
    ensures tags.JArray? && (exists i :: 0 <= i < |tags.items| && !tags.items[i].JString?) ==> r.None?
    ensures tags.JString? && tags.s != "" ==> r == Some(Join(Chars(tags.s), ", "))
    ensures tags.JObject? && tags.members != [] ==> r == Some(Join(KeysInOrder(tags.members), ", "))
    ensures (tags.JNumber? && tags.n != 0) || tags == JBool(true) ==> r.None?
  {
    if !Truthy(tags) then Some(Dash)
    else
      match tags
      case JArray(items) =>
        if forall i :: 0 <= i < |items| ==> items[i].JString? then
          Some(Join(StringItems(items), ", "))
        else None
      case JString(s) => Some(Join(Chars(s), ", "))
      case JObject(members) => Some(Join(KeysInOrder(members), ", "))
      case _ => None
  }

  /** The four pieces the profile text is made of, each None when computing
      it raises. */
  datatype ProfilePieces = ProfilePieces(
    vak: Option<string>, stress: Option<string>, decision: Option<string>, tags: Option<string>)

  /** Lines 115-126: the tags (`profile.get("personality_tags") or []`) and
      the three label lookups (`profile.get(key, '')`). */
  function Pieces(profile: seq<(string, Json)>): ProfilePieces
  {
    var rawTags := GetOr(profile, "personality_tags", JNull);
    var tags := if Truthy(rawTags) then rawTags else JArray([]);
    ProfilePieces(
      Label(VakLabels, GetOr(profile, "vak_type", JString(""))),
      Label(StressLabels, GetOr(profile, "stress_response", JString(""))),
      Label(DecisionLabels, GetOr(profile, "decision_style", JString(""))),
      TagsText(tags))
  }

  /** Lines 122-128: the heading and four lines, or None when a piece raised. */
  function RenderProfile(p: ProfilePieces): (r: Option<string>)
    ensures r.Some? <==> p.vak.Some? && p.stress.Some? && p.decision.Some? && p.tags.Some?
  {
    if p.vak.Some? && p.stress.Some? && p.decision.Some? && p.tags.Some? then
      Some(ProfileHeading
        + "🎯 Тип восприятия: " + p.vak.value + "\n"
        + "⚡ Реакция на стресс: " + p.stress.value + "\n"
        + "🧠 Стиль решений: " + p.decision.value + "\n"
        + "🏷 Теги: " + p.tags.value + "\n")
    else None
  }

  function ProfileText(profile: seq<(string, Json)>): Option<string>
  {
    RenderProfile(Pieces(profile))
  }

  /** What the profile service answered: nothing (the request raised), or a
      status code and a body. */
  datatype Fetch = FetchFailed | HttpResponse(status: int, body: string)

  /** `cmd_profile`: the one message it sends. Only a 404 is told apart; any
      other status is rendered from its body like a profile. */
  function ProfileReply(fetch: Fetch, parse: string -> Option<Json>): (r: string)
    ensures fetch.FetchFailed? ==> r == CouldNotLoad
    ensures fetch.HttpResponse? && fetch.status == 404 ==> r == TakeTestFirst
    ensures fetch.HttpResponse? && fetch.status != 404 ==>
      match parse(fetch.body)
      case Some(JObject(profile)) =>
        (ProfileText(profile).Some? ==> r == ProfileText(profile).value)
        && (ProfileText(profile).None? ==> r == CouldNotLoad)
      case _ => r == CouldNotLoad
  {
    match fetch
    case FetchFailed => CouldNotLoad
    case HttpResponse(status, body) =>
      if status == 404 then TakeTestFirst
      else
        match parse(body)
        case Some(JObject(profile)) =>
          (match ProfileText(profile)
           case Some(text) => text
           case None => CouldNotLoad)
        case _ => CouldNotLoad
  }

  /** `/profile` sends the "take a test first" message exactly on a 404; any
      other message is the apology or a profile text under its heading. */
  lemma ProfileReplyKinds(fetch: Fetch, parse: string -> Option<Json>)
    ensures ProfileReply(fetch, parse) == TakeTestFirst <==> fetch.HttpResponse? && fetch.status == 404
    ensures var r := ProfileReply(fetch, parse);
      r != TakeTestFirst && r != CouldNotLoad ==>
        |ProfileHeading| <= |r| && r[..|ProfileHeading|] == ProfileHeading
  {
    var r := ProfileReply(fetch, parse);
    assert CouldNotLoad[0] == 'Н';
    assert TakeTestFirst[0] == 'Т';
    if r != TakeTestFirst && r != CouldNotLoad {
      RenderedUnderHeading(Pieces(parse(fetch.body).value.members));
    }
    if r != CouldNotLoad && !(fetch.HttpResponse? && fetch.status == 404) {
      RenderedUnderHeading(Pieces(parse(fetch.body).value.members));
      assert r[0] == ProfileHeading[0];
      assert ProfileHeading[0] == '*';
    }
  }

  /** A rendered profile starts with its heading. */
  lemma RenderedUnderHeading(p: ProfilePieces)
    requires RenderProfile(p).Some?
    ensures var r := RenderProfile(p).value;
      |ProfileHeading| <= |r| && r[..|ProfileHeading|] == ProfileHeading
  {
    var rest := "🎯 Тип восприятия: " + p.vak.value + "\n"
      + "⚡ Реакция на стресс: " + p.stress.value + "\n"
      + "🧠 Стиль решений: " + p.decision.value + "\n"
      + "🏷 Теги: " + p.tags.value + "\n";
    assert RenderProfile(p).value == ProfileHeading + rest;
  }

  // ---------------------------------------------------------------------------
  // Properties of the profile text

  /** The text is the heading and exactly four lines, perception type, stress,
      decision style and tags, each label a fixed one or the dash. */
  lemma ProfileTextLayout(profile: seq<(string, Json)>)
    requires ProfileText(profile).Some?
    ensures exists vak, stress, decision, tags ::
      && (vak in VakLabels.Values || vak == Dash)
      && (stress in StressLabels.Values || stress == Dash)
      && (decision in DecisionLabels.Values || decision == Dash)
      && ProfileText(profile).value == ProfileHeading
           + "🎯 Тип восприятия: " + vak + "\n"
           + "⚡ Реакция на стресс: " + stress + "\n"
           + "🧠 Стиль решений: " + decision + "\n"
           + "🏷 Теги: " + tags + "\n"
  {
    var p := Pieces(profile);
    LabelIsFixedOrDash(VakLabels, GetOr(profile, "vak_type", JString("")));
    LabelIsFixedOrDash(StressLabels, GetOr(profile, "stress_response", JString("")));
    LabelIsFixedOrDash(DecisionLabels, GetOr(profile, "decision_style", JString("")));
    assert ProfileText(profile).value == ProfileHeading
           + "🎯 Тип восприятия: " + p.vak.value + "\n"
           + "⚡ Реакция на стресс: " + p.stress.value + "\n"
           + "🧠 Стиль решений: " + p.decision.value + "\n"
           + "🏷 Теги: " + p.tags.value + "\n";
  }

  lemma LabelIsFixedOrDash(labels: map<string, string>, v: Json)
    requires Label(labels, v).Some?
    ensures Label(labels, v).value in labels.Values || Label(labels, v).value == Dash
  {
    if v.JString? && v.s in labels {
      assert labels[v.s] in labels.Values;
    }
  }

  /** Only four fields are read: `attachment_type`, `anxiety_level`,
      `buying_power` and everything else never change the text. */
  lemma ProfileTextReadsFourFields(p1: seq<(string, Json)>, p2: seq<(string, Json)>)
    requires Lookup(p1, "vak_type") == Lookup(p2, "vak_type")
    requires Lookup(p1, "stress_response") == Lookup(p2, "stress_response")
    requires Lookup(p1, "decision_style") == Lookup(p2, "decision_style")
    requires Lookup(p1, "personality_tags") == Lookup(p2, "personality_tags")
    ensures ProfileText(p1) == ProfileText(p2)
  {
    assert Pieces(p1) == Pieces(p2);
  }

  /** The row's columns are found under their own names. */
  lemma RowLookups(u: User)
    ensures var row := UserRow(u).members;
      && Lookup(row, "vak_type") == Some(u.profile.vakType)
      && Lookup(row, "stress_response") == Some(u.profile.stressResponse)
      && Lookup(row, "decision_style") == Some(u.profile.decisionStyle)
      && Lookup(row, "personality_tags") == Some(u.profile.personalityTags)
  {
    var row := UserRow(u).members;
    assert Lookup(row, "vak_type") == Some(u.profile.vakType) by { LookupUnique(row, 4); }
    assert Lookup(row, "stress_response") == Some(u.profile.stressResponse) by { LookupUnique(row, 5); }
    assert Lookup(row, "decision_style") == Some(u.profile.decisionStyle) by { LookupUnique(row, 7); }
    assert Lookup(row, "personality_tags") == Some(u.profile.personalityTags) by { LookupUnique(row, 10); }
  }

  /** A stored null and the bot's '' default both render as the dash. */
  lemma LabelOfColumn(labels: map<string, string>, m: seq<(string, Json)>, key: string)
    requires labels == VakLabels || labels == StressLabels || labels == DecisionLabels
    ensures Label(labels, Column(m, key)) == Label(labels, GetOr(m, key, JString("")))
  {
    assert "" !in labels;
  }

  /** After an analysis, `/profile` shows what that analysis's CRM payload
      says, whatever the row held before. */
  lemma ProfileShowsLastAnalysis(u: User, crm: Json)
    requires ProfileUpdate(crm).Some?
    ensures ProfileText(UserRow(u.(profile := ProfileUpdate(crm).value)).members) == ProfileText(crm.members)
  {
    var m := crm.members;
    var update := ProfileUpdate(crm).value;
    var row := UserRow(u.(profile := update)).members;
    RowLookups(u.(profile := update));
    LabelOfColumn(VakLabels, m, "vak_type");
    LabelOfColumn(StressLabels, m, "stress_response");
    LabelOfColumn(DecisionLabels, m, "decision_style");
    assert Pieces(row) == Pieces(m);
  }
}
