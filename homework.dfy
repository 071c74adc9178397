/** The decision core of the notifier: the poll request and the reading of
    its reply, the validation of the decoded payload, the formatting of one
    homework record, and the credential check done at start-up. */
module Homework {
  import opened PyJson
  import opened Failures

  const ENDPOINT: string := "https://practicum.yandex.ru/api/user_api/homework_statuses/"

  /** Review status -> verdict shown to the student. */
  const HOMEWORK_STATUSES: map<string, string> := map[
    "approved" := "Работа проверена: ревьюеру всё понравилось. Ура!",
    "reviewing" := "Работа взята на проверку ревьюером.",
    "rejected" := "Работа проверена: у ревьюера есть замечания."
  ]

  // The arguments the program raises its exceptions with.
  const UNAVAILABLE: string := "Сбой в работе программы: эндпойнт " + ENDPOINT + " недоступен"
  const NOT_A_LIST: string := "Домашняя работа не в виде списка"
  const NOT_A_DICT: string := "В функцию не передан словарь"
  const NO_RESPONSE_CODE: string := "Нет нужного кода ответа от сервера"
  const NO_NAME: string := "Нет имени домашней работы"
  const UNDOCUMENTED: string := "Нет задокументированного ответа от сервера"
  const MISSING_VARIABLES: string := "Нет обязательных переменных окружения"
  const STATUS_CHANGED: string := "Изменился статус проверки работы \""

  /** The three environment variables; `os.getenv` gives None when one is unset. */
  datatype Env = Env(practicumToken: Option<string>, telegramToken: Option<string>, chatId: Option<string>)

  /** Python truthiness of an optional string: set and non-empty. */
  predicate Truthy(v: Option<string>) {
    v.Some? && v.value != ""
  }

  /** `check_tokens`: all three credentials are truthy. */
  function CheckTokens(env: Env): (ok: bool)
    ensures ok <==> forall t :: t in [env.practicumToken, env.telegramToken, env.chatId] ==> t.Some? && t.value != ""
  {
    Truthy(env.practicumToken) && Truthy(env.telegramToken) && Truthy(env.chatId)
  }

  /** The GET request of one poll. */
  datatype Request = Request(endpoint: string, authorization: string, fromDate: int)

  /** What the HTTP client hands back: a response, or the exception it raised. */
  datatype HttpResult =
    | Response(statusCode: int, body: Body)
    | RequestFailed(detail: string)

  /** The body of a response, as `response.json()` would read it. */
  datatype Body = Decodes(json: Json) | NotJson(detail: string)

  /** Python truthiness of the cursor argument (None or an int). */
  predicate Falsy(cursor: Option<int>) {
    cursor == None || cursor == Some(0)
  }

  /** The request `get_api_answer` sends: a falsy cursor is replaced by the
      current time, and the authorization header carries the token as
      formatted by an f-string (an unset token reads "None"). */
  function PollRequest(token: Option<string>, cursor: Option<int>, now: int): (q: Request)
    ensures q.endpoint == ENDPOINT
    ensures token.Some? ==> q.authorization == "OAuth " + token.value
    ensures token.None? ==> q.authorization == "OAuth None"
    ensures Falsy(cursor) ==> q.fromDate == now
    ensures !Falsy(cursor) ==> q.fromDate == cursor.value
  {
    var header := if token.Some? then Str(JStr(token.value)) else Str(JNull);
    var timestamp := if cursor.Some? && cursor.value != 0 then cursor.value else now;
    Request(ENDPOINT, "OAuth " + header, timestamp)
  }

  /** How `get_api_answer` reads the reply: status 200 yields the decoded
      body, any other status raises StatusCodeError; exceptions of the HTTP
      client and of the JSON decoder pass through. */
  function ReadReply(reply: HttpResult): (r: Result<Json>)
    ensures r.Ok? <==> reply.Response? && reply.statusCode == 200 && reply.body.Decodes?
    ensures r.Ok? ==> r.value == reply.body.json
    ensures reply.Response? && reply.statusCode != 200 ==> r == Err(StatusCodeError(UNAVAILABLE))
    ensures r.Err? && r.error.StatusCodeError? ==> reply.Response? && reply.statusCode != 200
    ensures r.Err? ==> r.error.StatusCodeError? || r.error.ForeignError?
    ensures reply.RequestFailed? ==> r == Err(ForeignError(reply.detail))
    ensures reply.Response? && reply.statusCode == 200 && reply.body.NotJson? ==> r == Err(ForeignError(reply.body.detail))
  {
    match reply
    case RequestFailed(detail) => Err(ForeignError(detail))
    case Response(code, body) =>
      if code != 200 then Err(StatusCodeError(UNAVAILABLE))
      else match body
        case Decodes(json) => Ok(json)
        case NotJson(detail) => Err(ForeignError(detail))
  }

  /** `check_response`: the `homeworks` list of a dict, returned as it is. */
  function CheckResponse(response: Json): (r: Result<seq<Json>>)
    ensures r.Ok? <==> response.JDict? && exists hs :: Lookup(response.fields, "homeworks") == Some(JList(hs))
    ensures r.Ok? ==> Lookup(response.fields, "homeworks") == Some(JList(r.value))
    ensures !response.JDict? ==> r == Err(TypeError(NOT_A_DICT))
    ensures response.JDict? && Lookup(response.fields, "homeworks").Some? && !Lookup(response.fields, "homeworks").value.JList?
      ==> r == Err(AnswerError(NOT_A_LIST))
    ensures response.JDict? && Lookup(response.fields, "homeworks").None? ==> r == Err(ServerAnswerError(NO_RESPONSE_CODE))
  {
    if !response.JDict? then Err(TypeError(NOT_A_DICT))
    else match Lookup(response.fields, "homeworks")
      case None => Err(ServerAnswerError(NO_RESPONSE_CODE))
      case Some(homeworks) =>
        if homeworks.JList? then Ok(homeworks.items) else Err(AnswerError(NOT_A_LIST))
  }

  /** A record whose name is set and whose status is one of the table's keys. */
  predicate Documented(homework: Json) {
    && homework.JDict?
    && Get(homework.fields, "homework_name") != JNull
    && Get(homework.fields, "status").JStr?
    && Get(homework.fields, "status").s in HOMEWORK_STATUSES
  }

  /** `parse_status`. A missing name raises KeyError; so does a status that is
      missing or not in the table, because the failed table lookup is itself a
      KeyError and the same handler re-raises it with the "no name" text.
      ServerAnswerError comes only from a record that is not a dict (it has no
      `get`) or from an unhashable status. */
  function ParseStatus(homework: Json): (r: Result<string>)
    ensures r.Ok? <==> Documented(homework)
    ensures r.Ok? ==> r.value == STATUS_CHANGED + Str(Get(homework.fields, "homework_name")) + "\". "
                                 + HOMEWORK_STATUSES[Get(homework.fields, "status").s]
    ensures r.Err? ==> r.error == KeyError(NO_NAME) || r.error == ServerAnswerError(UNDOCUMENTED)
    ensures r == Err(ServerAnswerError(UNDOCUMENTED)) <==>
              !homework.JDict?
              || (Get(homework.fields, "homework_name") != JNull && !Hashable(Get(homework.fields, "status")))
  {
    if !homework.JDict? then Err(ServerAnswerError(UNDOCUMENTED))
    else
      var name := Get(homework.fields, "homework_name");
      if name == JNull then Err(KeyError(NO_NAME))
      else
        var status := Get(homework.fields, "status");
        if !Hashable(status) then Err(ServerAnswerError(UNDOCUMENTED))
        else if status.JStr? && status.s in HOMEWORK_STATUSES then
          Ok(STATUS_CHANGED + Str(name) + "\". " + HOMEWORK_STATUSES[status.s])
        else Err(KeyError(NO_NAME))
  }

  /** The body of the `try` in one cycle of the main loop, up to the send:
      fetch, validate, and format the first homework when there is one.
      `Ok(None)` is a cycle with nothing to report. */
  function Poll(reply: HttpResult): (r: Result<Option<string>>)
    ensures r.Ok? ==> ReadReply(reply).Ok? && CheckResponse(ReadReply(reply).value).Ok?
    ensures r == Ok(None) <==> ReadReply(reply).Ok? && CheckResponse(ReadReply(reply).value) == Ok([])
    ensures r.Ok? && r.value.Some? ==>
              var homeworks := CheckResponse(ReadReply(reply).value).value;
              homeworks != [] && ParseStatus(homeworks[0]) == Ok(r.value.value)
    ensures r.Ok? && r.value.Some? ==> STATUS_CHANGED <= r.value.value
    ensures ReadReply(reply).Err? ==> r == Err(ReadReply(reply).error)
    ensures ReadReply(reply).Ok? && CheckResponse(ReadReply(reply).value).Err? ==>
              r == Err(CheckResponse(ReadReply(reply).value).error)
  {
    var response :- ReadReply(reply);
    var homeworks :- CheckResponse(response);
    if |homeworks| > 0 then
      var message :- ParseStatus(homeworks[0]);
      Ok(Some(message))
    else Ok(None)
  }

  /** A record with a string name and a string status: the exact message when
      the status is one of the table's keys, and otherwise the "no name"
      KeyError, not ServerAnswerError. */
  lemma ParseStatusOfRecord(name: string, status: string, others: seq<Field>)
    ensures var record := JDict([Field("homework_name", JStr(name)), Field("status", JStr(status))] + others);
            ParseStatus(record) ==
              if status in HOMEWORK_STATUSES
              then Ok("Изменился статус проверки работы \"" + name + "\". " + HOMEWORK_STATUSES[status])
              else Err(KeyError(NO_NAME))
  {
    var fields := [Field("homework_name", JStr(name)), Field("status", JStr(status))] + others;
    assert Lookup(fields, "homework_name") == Some(JStr(name));
    assert fields[1..] == [Field("status", JStr(status))] + others;
    assert Lookup(fields, "status") == Some(JStr(status));
  }

  /** The three ways to the same "no name" KeyError: the name is missing or
      null, the status is missing, or the status is a hashable value that is
      not a key of the table. */
  lemma NoNameKeyErrorCases(fields: seq<Field>)
    ensures ParseStatus(JDict(fields)) == Err(KeyError(NO_NAME)) <==>
              || Get(fields, "homework_name") == JNull
              || (Hashable(Get(fields, "status")) && !Documented(JDict(fields)))
  {
  }

  /** Only the first homework of the list is read: two replies whose lists
      start with the same record lead to the same outcome. */
  lemma PollReadsOnlyFirst(a: Json, b: Json, first: Json, restA: seq<Json>, restB: seq<Json>)
    requires CheckResponse(a) == Ok([first] + restA)
    requires CheckResponse(b) == Ok([first] + restB)
    ensures Poll(Response(200, Decodes(a))) == Poll(Response(200, Decodes(b)))
    ensures Poll(Response(200, Decodes(a))) ==
              match ParseStatus(first)
              case Ok(message) => Ok(Some(message))
              case Err(e) => Err(e)
  {
  }
}
