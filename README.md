# homework_bot: a Dafny model of the review-status notifier

`homework.py` polls the Yandex Practicum homework API for changes to a
student's submissions and forwards them to a Telegram chat. This project
models its decision core over an abstract type of decoded JSON values:

- **`get_api_answer`**: the request it builds and how it reads the HTTP reply.
  A falsy cursor is replaced by the current time. Status 200 yields the
  decoded body; any other status raises `StatusCodeError`.
- **`check_response`**: how the payload is classified. A dict whose
  `homeworks` value is a list yields that list unchanged. A non-dict raises
  `TypeError`. A non-list `homeworks` raises `AnswerError`. A missing key
  raises `ServerAnswerError` through the catch-all handler.
- **`parse_status`**: the status table `HOMEWORK_STATUSES` and the one
  message template.
- **`check_tokens`**: the start-up check on the three credentials.
- **The `main` loop, one cycle at a time.** The cursor moves to the clock
  only after a cycle that raised nothing. Only the first homework is
  formatted and sent. An exception is reported as
  `Сбой в работе программы: <str(error)>`. `send_message` swallows its own
  failures.

Modules, one per concern:

- `json.dfy`, module `PyJson`: JSON values as Python objects, with
  `dict.get`, subscripting, and `str()`/`repr()` of those values.
- `failures.dfy`, module `Failures`: the exception classes, a `Result` type,
  and `str(error)`. For a `KeyError` this is the repr of its argument, so it
  carries quotes.
- `homework.dfy`, module `Homework`: the constants and the pure functions
  listed above.
- `bot_loop.dfy`, module `BotLoop`: one cycle as the function `StepState`,
  a run of cycles as `Run`, and the class `Poller`. Its fields are the
  cursor, the messages handed to `send_message` (`outbox`), and those the
  chat client accepted (`delivered`). Its methods `Step` and `RunCycles` are
  proved against `StepState` and `Run`.
- `scenarios.dfy`, module `Scenarios`: single cycles on concrete replies,
  with the exact texts sent.

The outside world enters as parameters. The network is a function from
the `Request` sent to the `HttpResult` received. The clock is two integers
per cycle: one when the request is built and one at line 132. The chat
client is a flag saying whether it accepts this cycle's message.

Four behaviours of `homework.py` worth noting, all kept by the model:

- After a successful cycle the cursor becomes the wall-clock time
  (homework.py:132). The server's `current_date` is never read.
- An unknown status is not a `ServerAnswerError`. The failed table lookup
  (homework.py:98) is a `KeyError`, and the handler at homework.py:100-101
  re-raises it as `KeyError('Нет имени домашней работы')`. This is the same
  error a missing name gives. `ServerAnswerError` only comes from a record
  that is not a dict, or from an unhashable status (a list or a dict).
- There is no separate delivery error. `send_message` logs the failure and
  returns normally.
- The messages are the Russian texts of the code. A non-200 status produces
  the failure prefix twice, because the `StatusCodeError` argument already
  starts with it.

## Model

| member | source | states |
|---|---|---|
| PyJson.Lookup | homework.py:76 | subscripting a dict finds a value exactly when some entry has the key, and the value found belongs to the first such entry |
| PyJson.StrReprOfPlain | homework.py:135 | `repr` of a str with no quotes and nothing to escape is that text between single quotes (this is how `str(KeyError(m))` shows `m`) |
| Homework.CheckTokens | homework.py:106-110 | true exactly when each of the three credentials is set and non-empty |
| Homework.PollRequest | homework.py:55-59 | the request goes to the fixed endpoint with `OAuth <token>`; a None or 0 cursor is replaced by the current time, any other cursor is sent as `from_date` unchanged |
| Homework.ReadReply | homework.py:59-69 | success exactly for status 200 with a decodable body, which is returned as it is; any other status gives StatusCodeError with the endpoint text; StatusCodeError arises only from a non-200 status; a client or decoder failure is raised with its own text |
| Homework.CheckResponse | homework.py:72-88 | Ok exactly for a dict whose `homeworks` value is a list, and then that very list; TypeError for a non-dict, AnswerError for a non-list value, ServerAnswerError for a missing key |
| Homework.ParseStatus | homework.py:91-103 | succeeds exactly for a dict with a non-null name and a status that is a key of the table, with the template text and the table's verdict; every failure is the "no name" KeyError or ServerAnswerError, and ServerAnswerError exactly for a non-dict or an unhashable status behind a set name |
| Homework.ParseStatusOfRecord | homework.py:94-101 | for a string name and a string status: the exact message when the status is in the table, otherwise the "no name" KeyError |
| Homework.NoNameKeyErrorCases | homework.py:94-101 | a dict record gives the "no name" KeyError exactly when the name is missing or null, or the status is hashable (missing included) and not a key of the table |
| Homework.Poll | homework.py:124-129 | a cycle's `try` body succeeds only if both the reply and the payload check pass; it has nothing to send exactly when the list is empty; otherwise it sends the formatted first homework, which starts with the status-change text; an error of the reply or of the payload check is raised as it is |
| Homework.PollReadsOnlyFirst | homework.py:126-127 | two payloads whose lists start with the same record give the same outcome: whatever `parse_status` makes of that record |
| BotLoop.FailureText | homework.py:134-135 | the failure report starts with `Сбой в работе программы: ` |
| BotLoop.Notice | homework.py:123-136 | a cycle sends nothing exactly when it succeeded with an empty list; a successful cycle sends exactly what the `try` body formatted; a raised error sends its failure text; every message sent is a status change or a failure report |
| BotLoop.StepState | homework.py:122-137 | the cursor becomes the clock after a successful cycle and stays after a failed one; one message is appended, none for a successful empty cycle; a success appends the formatted first homework and a failure its failure text; `delivered` grows by that message only when the client accepts it |
| BotLoop.RunAppendsNotifications | homework.py:122-137 | over any run, messages are only appended, at most one per cycle, each a status change or a failure report, and no more are accepted than sent |
| BotLoop.RunIgnoresDelivery | homework.py:43-52 | whatever the chat client accepts or refuses, the cursor and the sent messages of a run are the same |
| BotLoop.RunCursor | homework.py:121-132 | after a run the cursor is the clock of the last cycle that raised nothing, and the start value when every cycle raised |
| BotLoop.Poller.constructor | homework.py:120-121 | the loop starts with the cursor at the current time and nothing sent |
| BotLoop.Poller.SendMessage | homework.py:43-52 | the text is handed to the client and recorded; it counts as delivered only when accepted, and the caller's state is otherwise unchanged |
| BotLoop.Poller.Step | homework.py:123-137 | one pass of the loop body leaves the object in exactly the state `StepState` gives |
| BotLoop.Poller.RunCycles | homework.py:122-137 | running the cycles one after another leaves exactly the state `Run` gives |
| BotLoop.Start | homework.py:113-121 | a missing credential raises VariableDoesNotExist before the loop starts; otherwise the loop starts at the current time |
| Scenarios.ApprovedHomeworkIsAnnounced | homework.py:126-132 | an approved `hw1` sends `Изменился статус проверки работы "hw1". Работа проверена: ревьюеру всё понравилось. Ура!` and moves the cursor to the clock, not to the reported `current_date` |
| Scenarios.EmptyListSendsNothing | homework.py:126-132 | an empty list sends nothing and still moves the cursor to the clock |
| Scenarios.UnavailableEndpointIsReported | homework.py:61-69 | HTTP 503 sends the failure prefix twice followed by the endpoint text, and keeps the cursor |
| Scenarios.NonListHomeworksAreReported | homework.py:78-84 | `homeworks` equal to 5 sends `Сбой в работе программы: Домашняя работа не в виде списка` and keeps the cursor |
| Scenarios.MissingHomeworksAreReported | homework.py:76-88 | a payload without `homeworks` sends the ServerAnswerError text and keeps the cursor |
| Scenarios.NonDictPayloadIsReported | homework.py:81-86 | a list payload sends the TypeError text and keeps the cursor |
| Scenarios.UnknownStatusIsReportedAsMissingName | homework.py:97-101 | an unknown status sends `Сбой в работе программы: 'Нет имени домашней работы'`, quotes included, and keeps the cursor |
| Scenarios.KeyErrorText | homework.py:134-135 | the failure report of the "no name" KeyError shows its text in single quotes |
| Scenarios.NumericNameIsShown | homework.py:99 | a name that is the integer 17 is shown as `17` in the message |
| Scenarios.RefusedReportIsSwallowed | homework.py:45-52 | a refused failure report leaves the cursor and the sent messages as an accepted one would, and only `delivered` differs |
| Scenarios.RequestCarriesCursor | homework.py:57-58 | a non-zero cursor is sent as `from_date`, a zero or None cursor is replaced by the current time, and an unset token reads `OAuth None` |

## Left out

- Network I/O. `requests.get` and `response.json()` (homework.py:59-62) are
  not modelled. The server is a function from request to reply, and a
  failure of either call is a `ForeignError` carrying its text.
- The Telegram client (homework.py:46-49, 120) is not modelled. Whether it
  accepts a message is a flag per cycle, and the chat id is not recorded.
- Clocks and blocking. `time.time()` and `time.sleep(RETRY_TIME)`
  (homework.py:57, 121, 132-133, 137) are not modelled. Times are integer
  parameters, so the truncation by `int()` is outside the model, and the
  sleep changes no state.
- Configuration and logging. Logger setup, every `logger` call,
  `load_dotenv` and `os.getenv` (homework.py:14-29) are not modelled. The
  environment is the parameter `Env`.
- The endless `while True` (homework.py:122) is not modelled. The model
  runs any finite sequence of cycles.
- The `exceptions` module is not part of this model. Its classes are
  constructors of `Failures.Error`, and `str()` of each is taken to be its
  single argument.
- The `message is not None` test (homework.py:128) is always true, since
  `parse_status` returns a string or raises. The model sends without it.
- JSON numbers are integers. Floats and their `str()` are not modelled.
- `repr` of a str escapes backslash, the quote, tab, newline, carriage
  return and the C0, DEL and C1 control characters. The other characters
  that Python treats as unprintable are shown as themselves.
- A dict is a sequence of entries, and lookup takes the first entry with a
  key. Decoded dicts have distinct keys, so this only matters for sequences
  the decoder never produces.
- Exceptions outside `Exception`, such as `KeyboardInterrupt`, are not
  modelled. Nor is a failure inside `str()` itself, such as a recursion
  limit on deeply nested values.
