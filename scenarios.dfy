/** Single cycles worked through on concrete replies. Expected texts are
    written in the pieces the program joins them from. */
module Scenarios {
  import opened PyJson
  import opened Failures
  import opened Homework
  import opened BotLoop

  const ENV: Env := Env(Some("practicum"), Some("telegram"), Some("42"))

  /** A server that gives `reply` to every request. */
  function Always(reply: HttpResult): Request -> HttpResult {
    q => reply
  }

  function HomeworksBody(homeworks: Json): Json {
    JDict([Field("homeworks", homeworks), Field("current_date", JInt(1000))])
  }

  /** A cycle whose reply raises `error`: the failure text is sent and the
      cursor stays. */
  lemma FailingCycle(s: LoopState, t: Tick, error: Error)
    requires Poll(ReplyTo(ENV, s.cursor, t)) == Err(error)
    ensures StepState(ENV, s, t).cursor == s.cursor
    ensures StepState(ENV, s, t).outbox == s.outbox + [FailureText(error)]
  {
  }

  /** An approved homework: its verdict is sent, and the cursor moves to the
      clock, not to the `current_date` of 1000 the server reported. */
  lemma ApprovedHomeworkIsAnnounced(s: LoopState, delivers: bool)
    ensures var record := JDict([Field("homework_name", JStr("hw1")), Field("status", JStr("approved"))]);
            var t := Tick(5, 7, Always(Response(200, Decodes(HomeworksBody(JList([record]))))), delivers);
            var s' := StepState(ENV, s, t);
            && s'.cursor == 7
            && s'.outbox == s.outbox + ["Изменился статус проверки работы \"" + "hw1" + "\". " + "Работа проверена: ревьюеру всё понравилось. Ура!"]
  {
  }

  /** An empty list: nothing is sent and the cursor still moves to the clock. */
  lemma EmptyListSendsNothing(s: LoopState, delivers: bool)
    ensures var t := Tick(5, 7, Always(Response(200, Decodes(HomeworksBody(JList([]))))), delivers);
            StepState(ENV, s, t) == LoopState(7, s.outbox, s.delivered)
  {
  }

  /** HTTP 503: the StatusCodeError's own text already starts with the failure
      prefix, so the chat receives the prefix twice; the cursor stays. */
  lemma UnavailableEndpointIsReported(s: LoopState, delivers: bool)
    ensures var t := Tick(5, 7, Always(Response(503, Decodes(JNull))), delivers);
            var s' := StepState(ENV, s, t);
            && s'.cursor == s.cursor
            && s'.outbox == s.outbox + ["Сбой в работе программы: " + "Сбой в работе программы: эндпойнт "
                                        + "https://practicum.yandex.ru/api/user_api/homework_statuses/" + " недоступен"]
  {
    var t := Tick(5, 7, Always(Response(503, Decodes(JNull))), delivers);
    assert ReplyTo(ENV, s.cursor, t) == Response(503, Decodes(JNull));
    FailingCycle(s, t, StatusCodeError(UNAVAILABLE));
    UnavailableText();
  }

  /** The report of a non-200 reply, written out. */
  lemma UnavailableText()
    ensures FailureText(StatusCodeError(UNAVAILABLE))
              == "Сбой в работе программы: " + "Сбой в работе программы: эндпойнт "
                 + "https://practicum.yandex.ru/api/user_api/homework_statuses/" + " недоступен"
  {
    assert UNAVAILABLE == "Сбой в работе программы: эндпойнт " + ENDPOINT + " недоступен";
  }

  /** `homeworks` is the integer 5: AnswerError is reported, the cursor stays. */
  lemma NonListHomeworksAreReported(s: LoopState, delivers: bool)
    ensures var t := Tick(5, 7, Always(Response(200, Decodes(HomeworksBody(JInt(5))))), delivers);
            var s' := StepState(ENV, s, t);
            && s'.cursor == s.cursor
            && s'.outbox == s.outbox + ["Сбой в работе программы: " + "Домашняя работа не в виде списка"]
  {
  }

  /** A payload without `homeworks` falls to the catch-all ServerAnswerError. */
  lemma MissingHomeworksAreReported(s: LoopState, delivers: bool)
    ensures var t := Tick(5, 7, Always(Response(200, Decodes(JDict([Field("current_date", JInt(1000))])))), delivers);
            var s' := StepState(ENV, s, t);
            && s'.cursor == s.cursor
            && s'.outbox == s.outbox + ["Сбой в работе программы: " + "Нет нужного кода ответа от сервера"]
  {
  }

  /** A payload that is a list, not a dict: TypeError is reported. */
  lemma NonDictPayloadIsReported(s: LoopState, delivers: bool)
    ensures var t := Tick(5, 7, Always(Response(200, Decodes(JList([])))), delivers);
            var s' := StepState(ENV, s, t);
            && s'.cursor == s.cursor
            && s'.outbox == s.outbox + ["Сбой в работе программы: " + "В функцию не передан словарь"]
  {
  }

  /** An unknown status is reported as the "no name" KeyError, whose text
      Python shows in quotes. */
  lemma UnknownStatusIsReportedAsMissingName(s: LoopState, delivers: bool)
    ensures var record := JDict([Field("homework_name", JStr("hw1")), Field("status", JStr("unknown"))]);
            var t := Tick(5, 7, Always(Response(200, Decodes(HomeworksBody(JList([record]))))), delivers);
            var s' := StepState(ENV, s, t);
            && s'.cursor == s.cursor
            && s'.outbox == s.outbox + ["Сбой в работе программы: " + "'" + "Нет имени домашней работы" + "'"]
  {
    var record := JDict([Field("homework_name", JStr("hw1")), Field("status", JStr("unknown"))]);
    var body := HomeworksBody(JList([record]));
    var t := Tick(5, 7, Always(Response(200, Decodes(body))), delivers);
    assert ReplyTo(ENV, s.cursor, t) == Response(200, Decodes(body));
    UnknownStatusRaises(record, body);
    FailingCycle(s, t, KeyError(NO_NAME));
    KeyErrorText();
  }

  /** The record with status "unknown" raises the "no name" KeyError. */
  lemma UnknownStatusRaises(record: Json, body: Json)
    requires record == JDict([Field("homework_name", JStr("hw1")), Field("status", JStr("unknown"))])
    requires body == HomeworksBody(JList([record]))
    ensures Poll(Response(200, Decodes(body))) == Err(KeyError(NO_NAME))
  {
  }

  /** `str(KeyError("Нет имени домашней работы"))` is the text in single quotes. */
  lemma KeyErrorText()
    ensures FailureText(KeyError(NO_NAME)) == "Сбой в работе программы: " + "'" + "Нет имени домашней работы" + "'"
  {
    KeyErrorMessage();
  }

  /** `str()` of that KeyError: the repr of its argument. */
  lemma KeyErrorMessage()
    ensures Message(KeyError(NO_NAME)) == "'" + NO_NAME + "'"
  {
    assert '\'' !in NO_NAME;
    StrReprOfPlain(NO_NAME);
  }

  /** A name that is not a string is shown as Python's `str` shows it. */
  lemma NumericNameIsShown()
    ensures var record := JDict([Field("homework_name", JInt(17)), Field("status", JStr("rejected"))]);
            ParseStatus(record) == Ok("Изменился статус проверки работы \"" + "17" + "\". " + "Работа проверена: у ревьюера есть замечания.")
  {
    var record := JDict([Field("homework_name", JInt(17)), Field("status", JStr("rejected"))]);
    assert Get(record.fields, "homework_name") == JInt(17);
    assert record.fields[1..] == [Field("status", JStr("rejected"))];
    assert Get(record.fields, "status") == JStr("rejected");
    assert Str(JInt(17)) == "17";
  }

  /** The chat client refusing the failure report changes nothing but `delivered`. */
  lemma RefusedReportIsSwallowed(s: LoopState)
    ensures var server := Always(Response(500, Decodes(JNull)));
            var refused := StepState(ENV, s, Tick(5, 7, server, false));
            var accepted := StepState(ENV, s, Tick(5, 7, server, true));
            && refused.cursor == accepted.cursor == s.cursor
            && refused.outbox == accepted.outbox == s.outbox + [FAILURE_PREFIX + UNAVAILABLE]
            && refused.delivered == s.delivered
            && accepted.delivered == s.delivered + [FAILURE_PREFIX + UNAVAILABLE]
  {
  }

  /** The poll request: the cursor is sent as `from_date`; a zero cursor is
      replaced by the current time. */
  lemma RequestCarriesCursor()
    ensures PollRequest(Some("abc"), Some(1650000000), 99) == Request(ENDPOINT, "OAuth " + "abc", 1650000000)
    ensures PollRequest(Some("abc"), Some(0), 99).fromDate == 99
    ensures PollRequest(None, None, 99) == Request(ENDPOINT, "OAuth " + "None", 99)
  {
  }
}
