# Homework status bot: verified model of its decision core

The bot polls a homework-review API every ten minutes. It looks at the most
recent homework in the answer and sends a chat notification when that
homework's formatted status differs from the last notification it sent. This
project models the decision logic of `homework.py` in Dafny and proves
properties of it:

- `check_tokens`, the startup check of the three secrets;
- `check_response`, the shape check of the API answer;
- `parse_status` with the `HOMEWORK_VERDICTS` table, which turns a homework
  record into the notification text;
- one pass of the `while True` loop in `main`, written as a pure transition
  over the loop's two variables, `previous_status` and `timestamp`.

The HTTP request and the chat transport are inputs to a pass. A pass receives
the decoded JSON answer or the exception the request raised, and a flag that
says whether a send would be delivered.

Files:

- `results.dfy`: `Option` and `Result` (module `Results`).
- `exceptions.dfy`: the exception kinds raised by the core (module
  `Exceptions`). These are the built-in `TypeError`, `KeyError`, `ValueError`,
  `AttributeError` and `ConnectionError`, plus `ApiAnswerError` and
  `SendMessageError` from `exceptions.py`. Where the source raises the same
  exception type with different messages, a reason field keeps them apart.
- `json.dfy`: JSON values as `json.loads` returns them, plus Python's
  `dict.get` and `str()` (module `Json`). An object is a list of key/value
  pairs, and the last binding of a key wins, as in the dict `json.loads`
  builds.
- `homework.dfy`: the verdict table, `check_tokens`, `check_response`,
  `parse_status`, and a decoder for notifications (module `Homework`).
- `poll_loop.dfy`: the startup guard, one pass of the loop, and finite runs
  of passes (module `PollLoop`).

Behaviour of the code worth knowing, all of it modelled as written:

- A `homeworks` value of JSON null is a `KeyError`, the same as a missing key.
  A null `homework_name` or `status` is likewise treated as missing.
- After a delivered notification, the cursor becomes whatever the answer holds
  under `current_date`. That value may be absent (Python `None`), or it may be
  smaller than before. The model therefore makes no claim that the cursor is
  an integer or that it only moves forward.
- The loop compares the whole formatted notification with the previous one,
  not the raw status. The homework name therefore takes part in the
  comparison.
- If the first homework is not a dict, `parse_status` raises
  `AttributeError`.
- A list or dict status raises `TypeError`, because such values cannot be
  hashed as dict keys.
- An integer or boolean status raises `ValueError`, the same as an unknown
  status string.

## Model

| member | source | states |
|---|---|---|
| `Json.Lookup` | homework.py:80-82 | Returns a value for a key exactly when some pair has that key. The value is from the last pair with that key. |
| `Json.Get` | homework.py:90-91 | Python's `dict.get`: a key that is present reads the value of its last binding. An absent key reads as `None` (`Null`). Any non-null result is bound to the key in the dict. |
| `Json.LookupLastBindingWins` | homework.py:80-82 | When a key occurs more than once, the value appended last is the one read. |
| `Json.LookupOtherKey` | homework.py:90-91 | Adding a binding for one key does not change what another key reads. |
| `Json.NatToDecimal` | homework.py:99 | The digits of a non-negative int as `str()` prints them: all decimal digits, denoting exactly the number, one digit for a number below 10, and no leading zero in a text of two or more digits. Together these fix the text uniquely. |
| `Json.CanonicalUnique` | homework.py:99 | Two canonical decimal texts (digits only, no leading zero unless the text is `0`) that denote the same number are the same text, so `str()` of an int has exactly one spelling and `NatToDecimal`'s contract determines it. |
| `Json.IntToDecimal` | homework.py:99 | `str()` of an int: the digits of the number itself when it is non-negative. Otherwise a minus sign followed by the digits of its magnitude. |
| `Json.PyStr` | homework.py:99 | The text the f-string puts in place of the homework name. A string is inserted as it is, `None` becomes `None`, a bool becomes `True` or `False`, an int becomes its decimal text, and a list or dict becomes its repr. |
| `Json.Repr` | homework.py:99 | The repr of a value nested in a list or dict. A string is put in single quotes, a list is bracketed by `[` and `]`, and a dict by `{` and `}`. |
| `Homework.Truthy` | homework.py:50 | Python truthiness of what `os.getenv` returns: `None` and the empty string are false, and any non-empty string is true. |
| `Homework.All` | homework.py:49-50 | Python's `all` over the tokens: true iff every token is present and non-empty. |
| `Homework.CheckTokens` | homework.py:47-50 | True iff all three secrets are present and non-empty. `None` or `''` for any one of them makes it false. |
| `Homework.CheckResponse` | homework.py:76-85 | A non-dict answer is `TypeError(NotADict)`. A missing or null `homeworks` is `KeyError`. A present, non-null value that is not a list is `TypeError(NotAList)`. It succeeds exactly when `homeworks` is a list, and returns that list unchanged. |
| `Homework.CheckResponseReturnsList` | homework.py:80-85 | Whatever fields precede it, a `homeworks` list is returned as it is. This includes the empty list, which is accepted rather than rejected. |
| `Homework.Message` | homework.py:99 | The notification consists of the fixed head, then the name, then the closing quote and the verdict. |
| `Homework.ParseStatus` | homework.py:88-99 | A non-dict is `AttributeError`. A missing or null name is `KeyError("homework_name")`, whatever the status, because the name is checked first. Next, a missing or null status is `KeyError("status")`, and a list or dict status is `TypeError(Unhashable)`. `ValueError` is raised exactly for a bool, an int, or a string outside the table. It succeeds exactly for a dict with a non-null name and a status string from the table, in any field order, and the result is the message built from `str(name)` and the table's verdict for that status. |
| `Homework.KnownStatusCodes` | homework.py:25-29 | The table's keys are exactly `approved`, `reviewing` and `rejected`. |
| `Homework.NameForOwnVerdict` | homework.py:99 | A notification built with a verdict gives back its name when read with that same verdict. |
| `Homework.NoOtherVerdict` | homework.py:25-29 | A notification that carries one verdict of the table cannot be read as carrying any other verdict. |
| `Homework.MessageRoundTrip` | homework.py:96-99 | Decoding the notification for any name and known status recovers exactly that name and that status code. |
| `Homework.MessageInjective` | homework.py:96-99 | Two notifications for known statuses are equal only if both the name and the status are equal. The same name with two different statuses therefore gives two different notifications. |
| `Homework.ParseStatusInjective` | homework.py:88-99 | Two records give the same notification only if they have the same rendered name and the same status. In particular, the same name with two different statuses gives two different notifications. |
| `Homework.ParseStatusOfRecord` | homework.py:88-99 | A record with a string name and a known status becomes the notification for that name and exactly that status's verdict, whatever other fields come before. |
| `PollLoop.Start` | homework.py:102-110 | The loop is entered iff `check_tokens` holds. It starts with an empty previous notification and cursor 0. |
| `PollLoop.Evaluate` | homework.py:113-116 | The notification one API outcome calls for. A failed request gives its own exception, and a `check_response` failure gives that exception. An empty `homeworks` list calls for nothing. Otherwise the result is `parse_status` of the first homework: its exception, or its message. |
| `PollLoop.CurrentDate` | homework.py:120 | The cursor a delivered notification moves to: the value the answer binds last to `current_date`, or `None` (`Null`) when the key is absent. |
| `PollLoop.Step` | homework.py:112-126 | The state changes only on `Sent`, so every failure, an unchanged notification and an empty list all leave the state as it was. A send needs a delivered notification that differs from the previous one. After a send, the previous notification becomes the message sent and the cursor becomes the answer's `current_date`. The pass returns its outcome and never raises. |
| `PollLoop.StepReports` | homework.py:112-126 | A send happens iff the pass produces a notification different from the previous one and the send is delivered. A notification equal to the previous one gives `Unchanged`, and an empty list gives `NoHomeworks`. An exception from the request, `check_response` or `parse_status` is reported as raised. A failed delivery is reported as `SendMessageError` carrying the message. |
| `PollLoop.StepDelivers` | homework.py:117-120 | A delivered new notification moves the state to that notification and the answer's date. |
| `PollLoop.Run` | homework.py:111-126 | Over any finite sequence of passes, the loop sends at most one notification per pass. It never sends the same notification twice in a row, and the first one it sends differs from the starting one. The final previous notification is the last one sent. A run that sends nothing ends in its starting state. |
| `PollLoop.SentSettles` | homework.py:115-120 | After a delivered notification, the same API outcome can no longer cause a send. |
| `PollLoop.SettledRunIsQuiet` | homework.py:115-124 | From a state where the answer calls for no new notification, repeating that answer sends nothing and changes nothing. |
| `PollLoop.SameAnswerSendsAtMostOnce` | homework.py:111-126 | Repeating the same API outcome sends at most one notification in total, whatever the deliveries do. |
| `PollLoop.EvaluateOneHomework` | homework.py:113-116 | For an answer with one homework of known status, the pass calls for that homework's notification, and the cursor candidate is the answer's date. |
| `PollLoop.StatusChangeScenario` | homework.py:112-126 | The scenario covers any two distinct known statuses. First status: notify and move the cursor. Same status again: nothing happens. Second status: notify again and move the cursor. API failure: nothing changes. |

## Left out

- `get_api_answer` (homework.py:64-73) performs the HTTP request. Its result is an input to each pass: either the decoded answer or the exception it raised. Which exception a given HTTP failure produces (`ApiAnswerError` for a request error, the built-in `ConnectionError` for a non-200 status, a decoding error for a body that is not JSON) is not modelled. The loop treats all of them the same way.
- `send_message` (homework.py:53-61) is reduced to the `delivered` flag of a pass. A failed delivery becomes `SendMessageError` carrying the message. The chat identifier and the bot object are not modelled.
- Environment loading, logging configuration and log output (homework.py:14-22 and homework.py:31-44) are left out, as is the construction of the bot object. Logging is reflected only in the `Outcome` a pass reports: sent, unchanged, no homeworks, or the caught exception.
- `sys.exit` on failed startup is modelled as `Start` returning `None`. The process exit itself is not modelled.
- The infinite loop and `time.sleep(RETRY_PERIOD)` are left out. The model covers one pass (`Step`) and finite runs of passes (`Run`), because non-termination and wall-clock time have no counterpart in a pure model.
- `MainError` (exceptions.py:13-16) is declared but never raised, so it has no constructor.
- JSON numbers with a fraction part (Python floats) are not modelled.
- The exact Russian text of each exception message is replaced by a structured reason or key name, which keeps the same distinctions.
- Json.Repr: the rendering of a list or dict used as a homework name is simplified. Strings are quoted without escaping, repeated keys are not merged, and the contract states only the brackets and quoting. For `None`, booleans, integers and strings, `Json.PyStr` gives Python's `str()`. For integers this is backed by `Json.NatToDecimal`, whose digits denote the number, with a single digit below 10 and no leading zero otherwise.
