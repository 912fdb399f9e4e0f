# homework_bot, modelled in Dafny

This project models the core of a Telegram bot that polls the Yandex Practicum
homework-status API. The bot checks each answer, turns the status of the most
recent homework into a message, and relays that message to a chat. The model
covers the steps between the HTTP call and the chat:

- the checks `get_api_answer` applies once the request has returned;
- `check_response`, the shape check of the answer;
- `parse_status`, the validation and formatting of one homework;
- `check_tokens`, the start-up check of the three environment variables;
- the body of `main`'s polling loop, which decides what is sent and what is
  remembered between cycles.

Files and modules:

- `python.dfy`, module `Py`: decoded JSON values and the pieces of Python the
  bot relies on. These are truthiness, the `in` operator on dicts, lists and
  strings, `dict.get`, `str()`/`repr()` as `str.format` applies them, and
  exception values (class and argument).
- `homework.dfy`, module `Homework`: the constants `HOMEWORK_VERDICTS`,
  `TOKENS` and `STATUS_MESSAGE` with the other message templates. It also
  holds `check_tokens`, the post-request part of `get_api_answer`,
  `check_response`, `parse_status` and `Attempt`. `Attempt` is what one pass
  through the `try` block decides.
- `poller.dfy`, module `Poller`: the loop as a class `MainLoop`. Its fields are
  the loop's variables `timestamp`, `previous_message` and `previous_error`,
  plus the list of messages handed to the bot. Raised exceptions are objects
  (`ExceptionObject`), so `previous_error != error` compares identities, as
  Python does. `Run` is `main` cut after a given number of cycles.
- `intended.dfy`, module `Intended`: the corrected versions that the Findings
  below refer to.

Where the code and the bot's documented intent differ, the model follows the
code:

- The code raises `TypeError`, `KeyError`, `ValueError` or `AttributeError`,
  never one "schema error".
- It checks only that `homework_name` is present, not that it is a non-empty
  string.
- It never records a delivered message and never advances the cursor.
- It compares errors by identity.

The last two are reported under Findings.

## Model

| member | source | states |
|---|---|---|
| `Homework.CheckTokens` | homework.py:53-58 | Passes exactly when all three variables of `TOKENS` are set and non-empty. Otherwise it raises ValueError with `NO_VARIABLE` naming the first unusable variable in `TOKENS` order. |
| `Homework.MissedStartsAtFirstUnset` | homework.py:55-58 | The comprehension of missing tokens is empty exactly when every token is usable. Otherwise its head is the first unusable token, the one the loop raises for. |
| `Homework.RejectErrorKeys` | homework.py:86-90 | The key loop passes the answer through unchanged exactly when no key is `in` it. A dict answer holding a key raises the KeyError that formatting raises. A list or string answer raises AttributeError from `.get`. A scalar answer raises TypeError from `in`. |
| `Homework.GetApiAnswer` | homework.py:81-91 | The answer is returned unmodified exactly when the status is 200, the body decodes, and neither `code` nor `error` is `in` it. A failed request and a non-200 status both end in KeyError('ENDPOINT'). An undecodable body raises the decoder's error. |
| `Homework.GetApiAnswerOfObject` | homework.py:86-91 | For a dict answer with status 200, the answer passes exactly when it has neither a `code` nor an `error` key; otherwise the error is KeyError('ENDPOINT'). |
| `Homework.RejectionsLookAlike` | homework.py:79-90 | A failed request, any non-200 status and an answer carrying `code` or `error` all raise the same KeyError('ENDPOINT'). |
| `Homework.CheckResponse` | homework.py:94-104 | Succeeds exactly when the answer is a dict whose `homeworks` is a list, and returns that list unchanged (possibly empty). A non-dict raises TypeError naming its type. A missing key raises the only KeyError, with `NO_KEY`. A non-list `homeworks` raises TypeError naming that value's type. |
| `Homework.ParseStatus` | homework.py:107-116 | Succeeds exactly when the homework is a dict with `homework_name` and a `status` that is a key of `HOMEWORK_VERDICTS`. The result is `STATUS_MESSAGE` with `str(homework_name)` and that verdict. A missing name raises ValueError with `NO_KEY`. For a dict with a name, an absent or string `status` fails exactly with ValueError `UNEXPECTED_STATUS`. |
| `Homework.ParseStatusApproved` | homework.py:114-116 | `{homework_name: name, status: "approved"}` yields exactly `Изменился статус проверки работы "name".` followed by the approval verdict. |
| `Homework.VerdictEndings` | homework.py:23-27 | The three verdict texts are told apart by their last two characters. |
| `Homework.StatusMessageInjective` | homework.py:33 | Two status messages are equal exactly when they carry the same name and the same verdict, so the comparison at line 132 compares (name, verdict). |
| `Homework.VerdictsDistinct` | homework.py:23-27 | Distinct statuses map to distinct verdicts. |
| `Homework.StatusChangeChangesMessage` | homework.py:112-116 | For two homeworks with the same `homework_name` that both parse, the messages are equal exactly when the statuses are equal. So the comparison with `previous_message` at line 132 notices every change of status. |
| `Homework.Attempt` | homework.py:128-131 | One pass through the `try` block decides an exception, nothing to report, or a status message. A message always begins with the `STATUS_MESSAGE` prefix. |
| `Homework.AttemptStages` | homework.py:128-131 | The stages run in order, and the first stage that raises decides the error: `get_api_answer`, then `check_response`, then `parse_status` of the first homework. The pass is quiet exactly when the checked list is empty. Otherwise its result is the first homework's status message. |
| `Homework.EmptyAnswerIsQuiet` | homework.py:129-130 | A clean answer with an empty `homeworks` list yields nothing to send and no error. |
| `Homework.FirstHomeworkDecides` | homework.py:129-131 | For a clean answer with a non-empty list, the cycle's result is exactly what `parse_status` gives for the first homework, whatever follows it. |
| `Poller.CycleNotices` | homework.py:130-139 | A cycle hands at most one message to the bot. A failure is always reported with `ERROR_GLOBAL`. An empty list sends nothing. A status message is sent, as the one message of the cycle, exactly when it differs from `previous_message`. |
| `Poller.MainLoop.constructor` | homework.py:123-125 | The loop starts with `timestamp` = now, empty `previous_message`, no previous error and nothing sent. |
| `Poller.MainLoop.SendMessage` | homework.py:61-68 | Appends the message to what the bot was given and returns None. |
| `Poller.MainLoop.TryBlock` | homework.py:127-135 | The request uses the current `timestamp`. An exception is returned exactly when the try block's outcome is a failure, and then nothing is sent. Otherwise the bot is given the status message exactly when it differs from `previous_message`. Because `send_message` returns None, `timestamp` and `previous_message` stay as they were. |
| `Poller.MainLoop.ExceptBlock` | homework.py:136-139 | The raised exception is a new object, so it always differs from `previous_error`. `ERROR_GLOBAL` with its text is sent, and `previous_error` becomes that new object. The cursor and `previous_message` are untouched. |
| `Poller.MainLoop.Cycle` | homework.py:127-139 | The request uses the current `timestamp`. `timestamp` and `previous_message` never change. What is sent is `CycleNotices` of the try block's outcome. After a failure, `previous_error` is the new exception object. |
| `Poller.PollCycles` | homework.py:123-141 | A bounded run of the loop from `timestamp` = now hands the bot exactly `SentAsWritten`: the notices of every cycle, computed with the cursor fixed at now and an empty previous message. |
| `Poller.Run` | homework.py:119-141 | `main`: if `check_tokens` raises, that exception is the result. Otherwise the result is exactly what the bounded loop sent. |
| `Poller.StatusResentEveryCycle` | homework.py:132-135 | As written, a status that stays the same is sent on every one of n cycles. |
| `Poller.ErrorResentEveryCycle` | homework.py:136-139 | As written, a recurring failure is reported on every one of n cycles. |
| `Poller.QuietCyclesSendNothing` | homework.py:129-130 | Cycles whose answers list no homework send nothing. |
| `Intended.IntendedRejectErrorKeys` | homework.py:86-90 | Makes the same decisions as the code's key loop. A dict answer holding an error key raises ValueError naming the first such key in `code`, `error` order and its value. |
| `Intended.IntendedGetApiAnswer` | homework.py:76-91 | Makes the same decisions as `get_api_answer`. A failed request raises APIHTTPRequestError with its cause. A non-200 status raises Exception with the status code. |
| `Intended.IntendedRejectionsDistinct` | homework.py:38-45 | Intended diagnostics tell a failed request from a bad status, and tell any two status codes apart. |
| `Intended.IntendedAttemptAgrees` | homework.py:128-131 | The intended try block reaches the same decision and message as the code's. |
| `Intended.IntendedCycle` | homework.py:130-139 | Sends at most one message. `previous_message` and the cursor change only when a status message was sent and delivered. |
| `Intended.IntendedStatusSentOnce` | homework.py:132-135 | With deliveries succeeding, a status that stays the same is sent once over n cycles, wherever the cursor moves. |
| `Intended.NetworkOutageReportedOnce` | homework.py:77-80 | As meant, requests that keep failing at the transport level are reported once over n cycles, with APIHTTPRequestError naming the cause, wherever the cursor is. |
| `Intended.IntendedCursorFollowsDelivery` | homework.py:133-135 | A delivered status moves the cursor to the answer's `current_date`. An undelivered one leaves the state as it was, and the status is sent again on the next cycle. |
| `Intended.IntendedErrorReportedOnce` | homework.py:137-139 | A recurring failure is reported once over n cycles, with errors compared by value. |

## Left out

- `requests.get` (homework.py:77-80): the outcome of the request is an input, either a transport failure with its cause or a status code with a body. The URL, headers and `from_date` are not built. The request function receives the cursor, so the cursor's role as `from_date` is kept.
- `response.json()` (homework.py:85): the body arrives already decoded, or as an undecodable body carrying the decoder's message.
- `telegram.Bot` and the network side of `bot.send_message`: a send records the message it was given. Delivery, `TelegramError` and exceptions of other classes from the bot are not modelled.
- Logging throughout, `load_dotenv`, `time.time` (the start time is a parameter), `time.sleep(RETRY_PERIOD)` and the endless `while True` (a run has a given number of cycles). The `KeyboardInterrupt` handler and the commented-out test code are also left out.
- JSON numbers are integers only; floating point is not modelled. Objects are ordered lists of bindings. The `Json` type does not enforce distinct keys; they are assumed, as `json.loads` produces. On an object with a repeated key, `Py.Lookup` finds the first binding, whereas `json.loads` keeps the last value.
- `Py.StringRepr` treats every non-ASCII character as printable. Python escapes the non-printable ones.
- The messages of interpreter-raised TypeError and AttributeError use CPython 3.9-3.13 wording.
- `Intended.IntendedGetApiAnswer`: the intended diagnostic texts keep only the part that names the failure. The endpoint, headers and timestamp are left out.

## Findings

| source | as written | input that shows it | evidently intended | confidence | as-written member | corrected member |
|---|---|---|---|---|---|---|
| homework.py:133-135 | `if send_message(bot, message):` tests the result of a function that always returns None. `previous_message` and `timestamp` are never updated. | Any answer whose first homework parses, e.g. `{homeworks: [{homework_name: "X", status: "approved"}]}`, on two cycles: the message is sent twice, and the cursor stays at the start time. | Record the message and move the cursor to `current_date` once delivered. | high, not executed | `Poller.StatusResentEveryCycle` | `Intended.IntendedStatusSentOnce` |
| homework.py:137-139 | `previous_error != error` compares exception objects, which compare by identity. Each cycle raises a new one, so the test is always true. | Two cycles answered with status 500: two identical diagnostics are sent. | Compare errors by value and send a recurring error once. | high, not executed | `Poller.ErrorResentEveryCycle` | `Intended.IntendedErrorReportedOnce` |
| homework.py:79-90 | `API_FAILED_REQUEST.format(...)` and `API_FAILED_RESPONSE.format(...)` get `url`/`headers`/`params` but not the `ENDPOINT` field the templates name. Formatting raises KeyError('ENDPOINT') instead of the intended exception. | A transport failure, status 404 and status 500 all produce the diagnostic `'ENDPOINT'`. | Raise the intended exception with a message naming the failure and the status code. | high, not executed | `Homework.RejectionsLookAlike` | `Intended.IntendedRejectionsDistinct` |
