# homework_bot — a Dafny model of the polling loop

The homework bot is a single Python script (`homework.py`) that polls the
Practicum homework-status API every 600 seconds and tells a Telegram chat when
the review status of the latest homework changes, or when something goes
wrong. This project models its decision logic:

- `check_response`, the three-step validator of the decoded reply;
- `parse_status`, which maps a status code through the closed table
  `HOMEWORK_STATUSES` to a notification text;
- `check_tokens`, the start-up gate on the three configuration values;
- `get_api_answer` from the choice of `from_date` onward, with the request
  itself given as an input (an exception text, or a status code and a body);
- `main`, the `while True` loop with its local `current_timestamp` and
  `LAST_ERROR_MESSAGE`.

Each helper that may send a message and then raise is a pure function
returning an `Outcome`: the messages it handed to `send_message`, in order,
and either its return value or the exception it raised (`Homework.Error`).
`send_message` never raises (it logs delivery failures), so sending is
appending to a log. `main` is the imperative method `Bot.Serve` over the same
local variables, proved equal to the specification `Bot.Run`, which folds the
one-pass function `Bot.Step` over a sequence of `Tick`s (one clock reading and
one request outcome per pass). The state also records the `from_date` of
every request, so that the cursor's effect is observable.

Files: `wrappers.dfy` (Option), `json.dfy` (decoded JSON values with Python's
truthiness, `dict.get` and f-string rendering), `homework.dfy` (the helper
functions and constants), `bot.dfy` (the loop), `bot_properties.dfy`
(lemmas about the loop).

The model follows the code, including these behaviours:

- an empty `homeworks` list raises `AssertionError` at line 171 and ends the
  loop; it is not a silent, continuing condition;
- `parse_status` is called outside the `try`, so its exceptions escape the
  loop and stop the process: an undocumented status is reported once by
  `parse_status` and then escapes as `KeyError`; a first homework that is not a
  dict escapes as `AttributeError` with no report;
- the `LAST_ERROR_MESSAGE_*` variables of the helpers are local and start as
  `''` on every call, so the helpers' reports are never suppressed; only the
  loop-level report (`'Сбой в работе программы: ...'`) is deduplicated, and
  the memory of it is not cleared by a successful pass: after a recovery, a
  repeat of the same outage is not reported again at loop level (only the
  helpers' own reports go out);
- after a failed request `get_api_answer` reports the error but then reads the
  unbound local `response` and raises `UnboundLocalError`; the loop-level
  report is therefore the same text for every failed request, whatever the
  error was; when the last loop-level report is not already that text (for
  instance right after start), two consecutive failed requests send three
  messages (two reports from `get_api_answer`, one from the loop), not one,
  while during an outage that was already reported each further failed
  request sends only its own report from `get_api_answer`;
- the loop-level text of a `KeyError` carries quotes, since `str(KeyError(m))`
  is `m`'s repr;
- the cursor starts at the clock reading, becomes whatever value the reply's
  `current_date` holds, and `from_date` falls back to the clock whenever the
  cursor is falsy;
- all texts are the source's Russian ones.

## Model

| member | source | states |
|---|---|---|
| `Homework.SendIfNew` | homework.py:163-165 | a message is handed over exactly when it differs from the remembered last message, and then it is the only one |
| `Homework.FreshGuardAlwaysSends` | homework.py:81-88 | a guard that starts from a fresh `''` never suppresses a non-empty message |
| `Homework.ErrorText` | homework.py:161 | `str(error)`: a `KeyError` shows its argument in quotes, every other exception shows it as is |
| `Homework.RequestParams` | homework.py:58-59 | `from_date` is the cursor when the cursor is truthy, and the clock reading otherwise |
| `Homework.GetApiAnswer` | homework.py:60-76 | a failed request sends its one report and then raises `UnboundLocalError`; a non-200 reply sends 'Эндпоинт недоступен' once and raises `AssertionError`; it returns exactly when the reply is 200, then with the body and nothing sent; it raises exactly when it sent one message |
| `Homework.CheckResponse` | homework.py:79-105 | a non-dict always fails with the not-a-dict `TypeError`; a dict missing either key with the `KeyError` (and `KeyError` is raised exactly then); a `homeworks` that is not a list with the server-unavailable `TypeError`; it returns exactly for the valid shape, the `homeworks` list unchanged and nothing sent; every failure sends exactly one message |
| `Homework.Verdict` | homework.py:116-121 | the table lookup succeeds exactly for a string status among the three documented codes, with that code's verdict |
| `Homework.NoVerdictIsApprovedCode` | homework.py:21-25 | no verdict text equals the code `'approved'`, so the shortcut branch at lines 129-131 is dead |
| `Homework.ParseStatus` | homework.py:108-134 | a non-dict homework raises `AttributeError` without sending; a dict with an undocumented status sends the undocumented-status message once and raises `KeyError`; it returns exactly for a documented status, then the text 'Изменился статус проверки работы "<name>". <verdict>' and nothing sent |
| `Homework.All` | homework.py:139 | `all(...)` is true exactly when every value is set and non-empty |
| `Homework.CheckTokens` | homework.py:137-139 | true exactly when the Practicum token, the Telegram token and the chat id are all set and non-empty |
| `Json.Get` | homework.py:116-117 | `dict.get` finds a value exactly when the key is present, and it is the stored one |
| `Json.Digits` | homework.py:134 | the decimal text of a natural number: digits only, no leading zero, and denoting exactly that number |
| `Json.Format` | homework.py:134 | the f-string shows a string name as itself, a missing or null name as `None`, and an integer as the digits denoting it (with a leading `-` when negative) |
| `Json.FormatIntegerIsCanonical` | homework.py:134 | an integer's text has no leading zero (only 0 itself starts with `0`), and a negative one has none after its `-` |
| `Bot.Start` | homework.py:148-154 | the process enters the loop exactly when `check_tokens` holds, with the cursor at the clock reading; nothing is sent or requested beforehand |
| `Bot.ClassifyCases` | homework.py:157-175 | a pass fails exactly when the reply is not a 200 with a valid shape (with one helper report), meets an empty list, meets an undocumented first homework, or reports a change exactly for a documented first homework, with the cursor's new value being the reply's `current_date` |
| `Bot.Report` | homework.py:160-165 | the loop-level report is sent exactly when it differs from `LAST_ERROR_MESSAGE`, which becomes it; nothing else changes |
| `Bot.Pass` | homework.py:156-176 | one pass of the loop body over `main`'s local variables is exactly `Step` |
| `Bot.Serve` | homework.py:142-176 | `main` run over a sequence of passes ends in exactly the state `Run` specifies |
| `BotProperties.StepRequestsOnce` | homework.py:58-61 | every pass makes one request, with `from_date` from the cursor or the clock |
| `BotProperties.CursorMovesOnlyOnStatusChange` | homework.py:166-175 | the cursor becomes `current_date` after a reported status change and is unchanged on every other path; the loop goes on exactly after a failure or a change |
| `BotProperties.FailureReportedUnlessRepeated` | homework.py:160-166 | a caught exception sends the helpers' reports, then the loop-level report only if it differs from the last one, which it replaces; the cursor stays |
| `BotProperties.StatusChangeAlwaysSent` | homework.py:172-175 | a status change is always sent and does not touch `LAST_ERROR_MESSAGE` |
| `BotProperties.EmptyHomeworksEndLoop` | homework.py:168-171 | an empty `homeworks` list ends the loop with `AssertionError`, sending nothing and leaving the cursor |
| `BotProperties.UnparsableHomeworkEndsLoop` | homework.py:172-173 | an undocumented status ends the loop with `KeyError` after one report; a non-dict first homework ends it with `AttributeError` and no report |
| `BotProperties.RepeatedFailureReportedOnce` | homework.py:160-165 | when the last loop-level report is not already that text, two consecutive passes failing with the same text give exactly one loop-level report |
| `BotProperties.RecoveryDoesNotResetReport` | homework.py:160-175 | a reported status change leaves `LAST_ERROR_MESSAGE` as it was, so the same failure coming back afterwards sends only the helpers' reports and no loop-level report |
| `BotProperties.OutageClassified` | homework.py:63-69 | a failed request is caught at loop level as the unbound `response`, after its own report |
| `BotProperties.OutageStep` | homework.py:63-69 | during an already reported outage, a further failed request only adds its own report and its request |
| `BotProperties.OutageContinues` | homework.py:156-166 | during an already reported outage, any number of failed requests leave the loop in the outage state: only their own reports and their requests are added |
| `BotProperties.AfterOutageLogs` | homework.py:63-68 | over such an outage the chat log gains exactly one endpoint report per pass, in order, and the request log one request per pass from the unchanged cursor |
| `BotProperties.OutageReportedOnce` | homework.py:156-166 | when the last loop-level report is not already the outage text, an outage of any length and any error texts yields one loop-level report in all, right after the first request's report |
| `BotProperties.RunOnlyAppends` | homework.py:156-176 | the chat log and the request log only grow; each pass makes one request; a loop still running consumed every pass; a stopped process does nothing more |
| `BotProperties.CursorComesFromServer` | homework.py:154-175 | the final cursor is the initial one or the `current_date` of a reply whose first homework was reported, in a pass the loop reached because every earlier pass failed or reported a change |
| `BotProperties.MissingTokensStopBeforeLoop` | homework.py:150-152 | without all three tokens the process stops before the loop, requesting and sending nothing |
| `BotProperties.DocumentedStatusTexts` | homework.py:128-134 | each of the three codes yields 'Изменился статус проверки работы "<name>". ' followed by exactly its table verdict |
| `BotProperties.UndocumentedStatusRaises` | homework.py:119-127 | any other code, or no status at all, sends the undocumented-status message once and raises `KeyError` |
| `BotProperties.ReviewingScenario` | homework.py:172-176 | a reply with one `reviewing` homework `hw1` and `current_date` 1000 sends its status text and moves the cursor to 1000 |
| `BotProperties.EmptyReplyScenario` | homework.py:168-171 | a reply with no homeworks sends nothing, leaves the cursor and ends the loop |
| `BotProperties.TwoTransportFailuresScenario` | homework.py:60-68 | two failed requests with the same error text right after start send three messages: the endpoint report, the loop-level report, the endpoint report |

## Left out

- HTTP (`requests.get`), the Telegram client, `load_dotenv`/`os.getenv` and the logging set-up: the request outcome, the clock readings and the three configuration values are inputs; what is sent is a log; log lines are not recorded.
- `time.sleep(RETRY_TIME)`: a pass boundary with no effect; `RETRY_TIME` is a constant only.
- Delivery failures inside `send_message`: it catches and logs them, so every message handed to it appears in the log whether or not it was delivered.
- `response.json()` failing on a body that is not JSON: the body is given already decoded.
- JSON floating-point numbers are not modelled.
- `Json.Format`: lists and objects used as a homework name are rendered as fixed placeholders, not by Python's `repr`.
- The wording of the `UnboundLocalError` raised at line 69 depends on the Python version; it is one fixed text here.
- The request headers (`OAuth` with the Practicum token) and the endpoint URL carry no decision logic.
- The loop never ends by itself; the model runs it over a finite sequence of passes.
- exceptions.py is not part of this model: it defines three empty exception classes that homework.py never uses.
