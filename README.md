# homework_bot in Dafny

A model of the polling bot in `homework.py`. The bot asks the homework-review
API for the reviews since a cursor date. It checks the shape of the answer and
turns the newest homework record into a notification text, using a fixed table
of verdicts. It sends that text to a chat only when it differs from the last
status it remembered. A failure is reported to the same chat, unless its text
repeats the last report. Once line 111 has read the server's `current_date`,
the cursor moves to it, or to the current time when that date is falsy. A
cycle that fails before that line keeps the cursor.

Files:

- `wrappers.dfy`: `Option` and `Result`.
- `json.dfy`: the decoded JSON value the API returns.
- `pyruntime.dfy`: the bits of Python the bot relies on. These are truthiness,
  `isinstance(x, int)`, `x[key]`, `key in x`, `x.get(key)`, `str`/`repr`,
  and the text of each exception class, including those of `exceptions.py`.
- `homework.dfy`: `HOMEWORK_STATUSES`, `check_response`, `parse_status` and
  `check_tokens`, each as a function.
- `pollloop.dfy`: one pass of the `while True` loop in `main`. It is written
  twice. `Step` is a function of the loop's state and the cycle's inputs.
  `Bot` is a class whose fields are the loop's variables, and its methods
  update them in place. `Run` and `Bot.PollAll` chain cycles over a finite
  list of inputs.
- `scenarios.dfy`: worked cycles. An approved homework, then the same answer
  again. A failing fetch seen twice. An empty list. An answer with no
  `current_date`.

The network, the clock and the chat API are inputs to each cycle. An input
holds the outcome of `get_api_answer`, which is an exception or the decoded
body. It holds the value `int(time.time())` gives at line 111. It also holds
the exception `send_message` raises, if it raises one.

The model keeps these behaviours of the code, some of them surprising:

- The cursor moves once line 111 has completed, even if validation or parsing
  fails later in the cycle. It does not wait for a successful cycle.
- `response['current_date']` is read before `check_response` runs. So a
  missing `current_date` fails with a plain `KeyError('current_date')`, not
  with the validator's message. A body that is not a dict fails there too,
  with Python's `TypeError`.
- `old_status` is assigned before the send. A failing send therefore leaves
  the new status remembered, and it is not sent again.
- The remembered value is the whole notification text, not the status code.
  `Homework.SameMessageIffSameReview` shows that comparing texts is the same
  as comparing (name, status) pairs.

## Model

| member | source | states |
|---|---|---|
| `PyRuntime.Truthy` | homework.py:77 | the falsy values are exactly None, False, 0, the empty string, the empty list and the empty dict |
| `PyRuntime.IsInt` | homework.py:108 | `isinstance(x, int)` holds exactly for values whose type is `int` or `bool` |
| `PyRuntime.Str` | homework.py:86-88 | `str(x)`: `None`, `True`/`False`, the canonical decimal text of an integer (no leading zero, no `-0`) that reads back as it, a string unchanged; a list in brackets, `[]` when empty and the `repr` of its only item when it has one |
| `PyRuntime.IntText` | homework.py:86 | the decimal text of an integer has no leading zero and never reads `-0`, and reads back as that integer |
| `PyRuntime.GetItem` | homework.py:111 | `x['current_date']` succeeds exactly on a dict that has the key; a dict without it raises KeyError of the key; any other value raises TypeError |
| `PyRuntime.Contains` | homework.py:79-82 | `key in x` is a dict-key test, a list-element test, or a substring test on a string; it raises an exception exactly on None, int and bool, and that exception is a TypeError |
| `PyRuntime.Get` | homework.py:83-84 | `x.get(key)` gives the value or None on a dict and raises an exception exactly on anything else, an AttributeError |
| `PyRuntime.Occurs` | homework.py:79 | Python's substring test holds exactly when the needle occurs at some index of the string |
| `PyRuntime.StrReprInjective` | homework.py:123 | different strings have different `repr` texts |
| `PyRuntime.EscapeInjective` | homework.py:123 | the escaped body of a string determines the string, for either quote |
| `PyRuntime.PlainStrRepr` | homework.py:123 | a string of printable ASCII characters other than quotes and backslash is shown between single quotes, unchanged |
| `Homework.CheckResponse` | homework.py:62-72 | fails in the source's order: not a dict (TypeError), no `homeworks` (KeyError), no `current_date` (KeyError), `homeworks` not a list (Exception); on success the answer has both keys and the result is exactly its `homeworks` list |
| `Homework.AnswerAccepted` | homework.py:66-72 | an answer carrying a `homeworks` list and a `current_date`, plus any other keys, is accepted with that very list |
| `Homework.ParseStatus` | homework.py:75-88 | fails for a falsy record (ErorrAPI), a missing `homework_name` or `status` (KeyError), and an unknown string status, None, int or bool status (KeyError naming `str(status)`); a list or dict status raises TypeError, a truthy int record TypeError, a list or string record ErorrAPI, KeyError or AttributeError. It succeeds exactly on dicts whose status is a key of the table, with the template filled from `str(name)` and the status's verdict |
| `Homework.Lookup` | homework.py:85-88 | succeeds exactly for a string status in the table, giving the template with that verdict; an unknown string, None, int or bool raises KeyError of `str(status)` and the suffix; a list or dict status raises TypeError |
| `Homework.KnownStatuses` | homework.py:23-28 | the table's keys are exactly `approved`, `reviewing`, `rejected` and the empty code, which maps to the sentinel verdict |
| `Homework.UnassignedStatusReported` | homework.py:23-28 | the empty status is accepted and reported with the "не назначен" sentinel verdict |
| `Homework.VerdictsSuffixFree` | homework.py:23-28 | no verdict sentence ends with another one |
| `Homework.VerdictsDistinct` | homework.py:23-28 | distinct status codes have distinct verdicts |
| `Homework.StatusMessageInjective` | homework.py:88 | a notification text, as `StatusMessage` fills the line-88 template, determines the name and the verdict it was built from |
| `Homework.SameMessageIffSameReview` | homework.py:83-88 | two accepted records give the same text if and only if they show the same name and carry the same status |
| `Homework.CheckTokens` | homework.py:91-94 | true exactly when every secret is present and non-empty |
| `PollLoop.Attempt` | homework.py:108-115 | the first failing guard decides the exception: a non-int cursor (ErorrAPI), the fetch's exception, the subscript's exception, then `check_response`'s and `parse_status`'s, the last two with `response_time` already set; an empty list gives no homework, a non-empty one the parsed text. `response_time` is set exactly when the cursor is an int, the fetch succeeded and the body is a dict with `current_date`. Its value is `current_date`, or `now` when that is falsy. Every outcome other than an exception has it set. A parsed text is `parse_status` of the first element of a non-empty validated list |
| `PollLoop.Notify` | homework.py:116-118 | a status call is made exactly when the parsed text differs from `old_status`; that text becomes `old_status`, and the send's exception is what escapes the block. Otherwise `old_status` is kept and what escapes is the exception raised earlier, if any |
| `PollLoop.KeyErrorReportsDistinct` | homework.py:123-127 | KeyErrors with different arguments give different reports (`ErrorReport`: the line-123 prefix followed by `ErrorText`, the `repr` of a KeyError's argument), so one never silences the other |
| `PollLoop.Report` | homework.py:122-127 | a report is sent exactly when an exception was caught and its text differs from `old_message`; that text then becomes `old_message` |
| `PollLoop.Step` | homework.py:106-130 | at most one status call, then at most one report. A status call never repeats `old_status` and becomes it, and `old_status` changes only through such a call. The same holds for reports and `old_message`. The cursor takes the line-111 value when that line completed, else it keeps its value |
| `PollLoop.StatusChangeSent` | homework.py:114-118 | a new status is sent first and remembered; with a working send it is the only call and `old_message` is kept |
| `PollLoop.SendFailureReported` | homework.py:117-127 | when the send fails, the status is remembered all the same and the send's exception is reported if its text is new |
| `PollLoop.SameStatusSuppressed` | homework.py:114-129 | a status equal to `old_status` sends nothing and only the cursor moves |
| `PollLoop.EmptyListQuiet` | homework.py:114-129 | an empty `homeworks` list sends nothing and keeps both memories, while the cursor advances |
| `PollLoop.FailureReportedOnce` | homework.py:122-127 | a caught exception is sent and remembered when its text is new, otherwise nothing is sent; `old_status` is kept |
| `PollLoop.CursorUpdate` | homework.py:108-129 | a failed fetch keeps the cursor; once `current_date` has been read the cursor is that value, or `now` if it is falsy |
| `PollLoop.RepeatedCycleSendsNoStatus` | homework.py:106-130 | repeating a cycle with the same inputs makes no status call the second time |
| `PollLoop.StepStatusTexts` | homework.py:114-118 | one cycle makes at most one status call; its text differs from `old_status` and is remembered afterwards |
| `PollLoop.StepReportTexts` | homework.py:122-127 | one cycle makes at most one failure report; its text differs from `old_message` and is remembered afterwards |
| `PollLoop.RunStatusesNeverRepeat` | homework.py:106-130 | over any run, no status notification repeats the one before it, the first differs from the initial `old_status`, and the last one sent is the final `old_status` |
| `PollLoop.Run` | homework.py:106-130 | no inputs leave the state alone; each cycle makes at most two calls |
| `PollLoop.RunConcat` | homework.py:106-130 | running two stretches of inputs one after the other is running their concatenation |
| `PollLoop.RunReportsNeverRepeat` | homework.py:106-130 | over any run, no failure report repeats the one before it, and the last one sent is the final `old_message` |
| `PollLoop.Bot.constructor` | homework.py:102-104 | the loop starts with the current time as cursor and empty memories |
| `PollLoop.Bot.Poll` | homework.py:106-130 | updating the fields in place gives the state and the calls of `Step` |
| `PollLoop.Bot.TryBlock` | homework.py:107-120 | the `try` block leaves the `response_time`, the status memory, the status call and the escaping exception that `Attempt` and `Notify` give |
| `PollLoop.Bot.ReportFailure` | homework.py:122-127 | the `except` clause leaves the memory and the call that `Report` gives |
| `PollLoop.Bot.PollAll` | homework.py:106-130 | running the loop body over a list of inputs gives the state and calls of `Run` |
| `Scenarios.ApprovedThenRepeated` | homework.py:110-118 | a fresh bot that sees an approved homework sends its text once and moves the cursor to 1000; the identical next answer sends nothing |
| `Scenarios.OutageReportedOnce` | homework.py:122-129 | a failing fetch is reported once, the same failure next cycle is not reported again, and the cursor stays |
| `Scenarios.EmptyAnswerAdvances` | homework.py:111-120 | an empty list sends nothing and the cursor follows `current_date` |
| `Scenarios.MissingDateFailsBeforeValidation` | homework.py:111-112 | a dict without `current_date` fails with `KeyError('current_date')` before validation, even when `homeworks` is missing too; only `old_message` may change |

## Left out

- `get_api_answer` (homework.py:47-59) and `send_message` (homework.py:38-44) are I/O wrappers. Their outcomes are inputs of a cycle. So the rewrap of every exception into `BadRequestError`, the `from_date` value of line 49 and the malformed `except` clause of line 43 are not modelled.
- The failure report at line 126 is assumed to succeed. If it raised, the exception would leave the loop and end the program.
- `time.sleep(RETRY_TIME)`, logging, the `.env` loading and the reading of the environment are left out, because they have no effect on the loop's state.
- Start-up (homework.py:99-104): `sys.exit` is named but never called, so a missing token does not stop the bot. This is not modelled. `response_time` is unbound if the first cycle fails before line 111, which would crash the `finally`. The model instead assumes it starts equal to the initial cursor. From then on the two are always equal, so the state holds only the cursor.
- The endless loop is modelled as `Run` over a finite list of inputs.
- JSON numbers with a fraction are not modelled; the API's numbers are integers.
- PyRuntime.Str: a dict is shown as `{...}`. The model's objects are maps without key order, so Python's text for a dict cannot be produced. For a list of two or more items the contract fixes only the brackets; the body joins the items' `repr` texts with `, `, but no lemma states that.
- PyRuntime.StrRepr: models the quote choice and escapes backslash, the quote, tab, newline and carriage return, and writes `\xNN` for the other non-printable characters up to U+00FF. Above U+00FF, Python decides printability by Unicode category and uses `\uNNNN` and `\UNNNNNNNN` escapes; that is left out, so those characters appear unescaped.
- PyRuntime.GetItem: the built-in TypeError texts follow CPython 3.9. Later versions word the string case differently. The same holds for PyRuntime.Contains and PyRuntime.Get.
- `proba.py` is a throw-away script with only network calls. `exceptions.py` holds three message-carrying classes, which appear here as variants of `PyError`. `WrongAnswerApiError` never reaches the loop, because `get_api_answer` rewraps it.
