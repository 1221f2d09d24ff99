# homework_bot: the polling core, in Dafny

`homework.py` is a Telegram bot that asks the Yandex Practicum homework API every ten minutes
for the homework statuses changed since a cursor, and forwards to a fixed chat the first record
of each non-empty reply whose `current_date` is new; later records of the same reply are never
forwarded, since the cursor moves past them. This project models its
decision core. That core has five parts:

- the startup gate `check_tokens`, as `main` uses it;
- the way `get_api_answer` classifies one HTTP call, taken over an abstract transport outcome;
- the response validator `check_response`;
- the status parser `parse_status` with its verdict table `HOMEWORK_VERDICTS`;
- one iteration of the `while True` loop in `main`, which owns the cursor `timestamp1`.

The modules are:

- `Wrappers` (`wrappers.dfy`): `Option` and `Result`.
- `PyJson` (`pyjson.dfy`): decoded JSON values together with the parts of Python the bot relies on. These are truthiness, `all`, `==` and `str()` of scalars.
  - `PyEq` is Python's `==` (where `True == 1` and `[1] == [True]`), used by the cursor comparison at homework.py:135; `PyEqReflexive` and `PyEqSymmetric` state its properties.
  - `Show` is `str()` as the f-strings at homework.py:115 and 118 interpolate it; `DecimalRoundTrip`, `IntegerStatusInMessage` and `StatusMessage` state what it writes.
- `PyErrors` (`pyerrors.dfy`): the exceptions the bot raises, as a tagged datatype. `ErrText` gives the text `str(error)` produces for each one, as the f-string at homework.py:140 uses it; `FaultMessage`, `FetchFaultReported` and `FaultTextsCoincide` state what it yields.
- `Homework` (`homework.dfy`): `CheckTokens`, `GetApiAnswer`, `CheckResponse`, `LookupVerdict` and `ParseStatus`, all pure functions.
- `Supervisor` (`supervisor.dfy`): the loop.
  - `TryCycle` is the `try` block. `Step` is one whole iteration, including the fault message and the sleep of `finally`. `Replay` is a sequence of iterations of the loop at homework.py:130-144; `ReplayCounts` and `RequestsUseCursor` state its properties, and `RunBot` is proved to reach it.
  - The class `Bot` holds the cursor, the messages sent, the `from_date` of every request and the number of sleeps. Its method `Cycle` updates them in place, and its contract is `Step`.
  - `RunBot` is `main` run over a finite list of transport outcomes.

The network, the Telegram bot and the clock are inputs or logs:

- A `Transport` value stands for what `requests.get` did: a reply with a status code and a body that may not decode, a `RequestException`, or any other exception.
- Each `send_message` appends its text to `notifications`.
- Each `time.sleep` increments `sleeps`.

Choices that follow the program as written:

- Messages are the Russian texts of the program.
- The chat id is a constant of the program, not an environment value.
- The cursor starts at `1` and is compared with Python's `!=`.
- A missing `current_date` on a non-empty reply stores `None` as the cursor.
- An unreachable API and an undecodable reply both produce the fault message `"Сбой в работе программы: "` with empty details. This is because `raise KeyError` and `raise Exception` carry no text. So the two cases cannot be told apart (`FaultTextsCoincide`).
- A status that is not documented is a `ValueError`, and a missing field is a `KeyError`.

## Model

| member | source | states |
|---|---|---|
| PyJson.All | homework.py:51 | `all(xs)` is true exactly when every element is truthy |
| PyJson.PyEqReflexive | homework.py:135 | every JSON value is `==` to itself, so a stored cursor matches the same `current_date` again |
| PyJson.PyEqSymmetric | homework.py:135 | the cursor comparison does not depend on the order of its operands |
| PyJson.DecimalRoundTrip | homework.py:113-115 | `str()` of an integer, as the f-string writes it, reads back as that integer; `Homework.IntegerStatusInMessage` applies this to the `ValueError` message |
| Homework.CheckTokens | homework.py:48-51 | the gate passes exactly when the API token, the bot token and the chat id are all truthy |
| Homework.GateDependsOnTokens | homework.py:16 | with the chat id fixed by the program, only the two tokens decide the gate |
| Homework.GetApiAnswer | homework.py:65-82 | only a 200 reply yields a value, which is `None` when the body is not JSON; a non-200 code or a request fault gives a bare `KeyError`; any other fault gives a bare `TypeError` |
| Homework.CheckResponse | homework.py:85-101 | accepts exactly a dict whose `homeworks` is a list and returns that list unchanged; otherwise a falsy payload gives `Exception`, a non-dict gives `TypeError`, a missing key gives `KeyError` and a non-list gives `TypeError`, in that order |
| Homework.CheckResponseExamples | homework.py:87-101 | `None` and `{}` give `Exception`, `{"homeworks": "not-a-list"}` gives `TypeError`, `{"other": 1}` gives `KeyError`, and `{"homeworks": []}` gives the empty list |
| Homework.LookupVerdict | homework.py:111 | the table lookup finds exactly the three documented status strings; a list or dict key raises `TypeError("unhashable type: 'list'")` or `TypeError("unhashable type: 'dict'")`; every other key gives `None` |
| Homework.ParseStatus | homework.py:104-118 | a non-dict record raises `AttributeError`; a falsy or missing name or status raises `KeyError`; success happens exactly for a truthy name with a documented status, and gives the header, the name and that status's verdict |
| Homework.KnownStatusMessage | homework.py:24-28 | for `approved`, `reviewing` and `rejected` with a truthy name, the message is `Изменился статус проверки работы "<name>". ` followed by exactly that table entry |
| Homework.UnknownStatusRejected | homework.py:111-115 | a truthy status string outside the table raises `ValueError`, whose message is the fixed prefix followed by exactly that status |
| Homework.NonStringStatusRejected | homework.py:111-115 | a truthy status that is a number raises `ValueError`; one that is a list or dict raises `TypeError` |
| Homework.IntegerStatusInMessage | homework.py:111-115 | a truthy integer status raises `ValueError`, and the text after the message's prefix is that integer's decimal form, which reads back as the status |
| Homework.StatusMessage | homework.py:118 | the status message starts with the header, shows the name right after it, and ends with exactly the verdict text |
| Homework.MissingFieldPrecedesLookup | homework.py:110-117 | a missing or empty name gives the `KeyError` before any lookup, even when the status is unhashable |
| Homework.MessageDeterminesStatus | homework.py:118 | for the same name, two successful messages are equal only when the statuses are equal |
| Supervisor.TryCycle | homework.py:131-138 | a `try` block that completes sends at most one message |
| Supervisor.FaultMessage | homework.py:140 | the fault message is the fixed prefix followed by exactly the exception's text |
| Supervisor.Step | homework.py:130-144 | one iteration sleeps exactly once, makes one request with the current cursor, and sends at most one message, appended after the earlier ones; when the `try` block raises, that message is exactly the fault message for its exception |
| Supervisor.Bot.constructor | homework.py:126-129 | the cursor starts at 1, with only the start message sent |
| Supervisor.Bot.Cycle | homework.py:131-144 | the new cursor, messages, requests and sleep count are those of `Step` applied to the old ones |
| Supervisor.RunBot | homework.py:121-144 | without both tokens, `main` exits with -1 and sends and fetches nothing; otherwise it reaches the state of the cycles replayed in order |
| Supervisor.FetchFaultReported | homework.py:71-82 | a request fault, a non-200 reply or an unexpected fault leaves the cursor alone and sends exactly one fault message, with empty details |
| Supervisor.MalformedBodyReported | homework.py:74-89 | a 200 reply that is not JSON becomes `None`; the validator rejects it, which gives one fault message and an unchanged cursor |
| Supervisor.FaultTextsCoincide | homework.py:73-89 | an unreachable API and an undecodable reply produce the same message |
| Supervisor.ValidatorRejection | homework.py:87-100 | a 200 reply whose decoded body the validator rejects leaves the cursor alone and sends exactly one fault message carrying the validator's exception |
| Supervisor.NoChangeIsQuiet | homework.py:134-135 | a valid reply with no records, or with a `current_date` equal to the cursor, sends nothing and keeps the cursor |
| Supervisor.ChangeAdvancesCursor | homework.py:135-141 | a new `current_date` on a non-empty reply moves the cursor before parsing; the only message is about the first record, and is a fault message if that record fails to parse |
| Supervisor.AbsentDateStoresNone | homework.py:134-136 | a non-empty reply without `current_date` stores `None` as the cursor |
| Supervisor.CursorMovesOnlyOnChange | homework.py:132-136 | the cursor changes only on a 200 reply that passes validation with records and a different `current_date`, and then takes that date |
| Supervisor.RepeatedReplyIsQuiet | homework.py:134-136 | receiving the same valid reply a second time sends nothing and keeps the cursor |
| Supervisor.ApprovedScenario | homework.py:127-138 | starting from cursor 1, `hw1` approved at date 100 gives one status message and cursor 100; the same reply again gives no message |
| Supervisor.ReplayCounts | homework.py:129-144 | after n cycles: n sleeps, n requests, the start message first, and between 1 and n + 1 messages |
| Supervisor.RequestsUseCursor | homework.py:132 | request k is made with the cursor left by the first k cycles |

## Left out

- The HTTP call, its URL, its `Authorization` header and its `from_date` query parameter (homework.py:19-22, 67-70). A `Transport` value stands for the outcome, and `queried` records which cursor each request was given.
- The Telegram bot and its transport (homework.py:54-62, 126). Every send is recorded in `notifications`. A send that fails with `TelegramError` is swallowed by `send_message` and is not distinguished here. The model assumes every `bot.send_message` either returns or raises `TelegramError`. Any other exception escapes `send_message` (homework.py:60 catches only `TelegramError`). From the status send at homework.py:138 it would reach the `except` at homework.py:139 and add a second message, the fault message, in the same cycle. From the sends at homework.py:129 or 141 it would end `main`. `Supervisor.Step`'s bound of one message per cycle and `Supervisor.ReplayCounts`' bound of n + 1 messages hold only under this assumption. The model also assumes that `telegram.Bot(token=TELEGRAM_TOKEN)` at homework.py:126 succeeds for every truthy token. A truthy token without the `<digits>:<rest>` shape makes that constructor raise `InvalidToken`, outside any `try`, which ends `main` before the start message and before any fetch. `Supervisor.RunBot`'s clause that the bot otherwise polls to `Replay(outcomes)`, and the start message that `Supervisor.ReplayCounts` puts first, hold only under this assumption.
- Logging configuration and every `logging` call (homework.py:30-45 and elsewhere). They have no effect on behaviour.
- `load_dotenv` and `os.getenv` (homework.py:12-20). The two tokens are parameters of `RunBot`.
- The ten-minute delay of `time.sleep`. It is counted, not timed.
- The unbounded `while True`. `RunBot` runs one cycle per given transport outcome.
- JSON floating-point numbers. `Json` has no float case. Python's `json.loads` accepts `NaN`, and `NaN != NaN`. A non-empty reply with `"current_date": NaN` would therefore count as a change on every cycle and re-send the status each time. `PyJson.PyEqReflexive` and `Supervisor.RepeatedReplyIsQuiet` hold only because floats are outside the model.
- PyJson.Show: renders a list or dict as a fixed placeholder rather than Python's `repr`. This only matters for a message about a work whose name is a list or dict.
- PyErrors.ErrText: writes a `KeyError` argument between single quotes without `repr`'s escaping. This is exact for the one argument the program passes.
