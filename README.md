# homework_bot: token check, answer check and status translation

A model of the logic of the homework-status bot's `homework.py`. The bot polls
the Practicum homework-status API and turns a review status into a chat
message. What this file actually computes, and what is modelled here, is:

- `check_tokens`: walks the list `PRACTICUM_TOKEN`, `TELEGRAM_TOKEN` in that
  order and stops at the first failure. An absent token raises `TypeError`. A
  probe request that fails in transport raises `APIError`. A reply other than
  200 raises `ValueError`. The probe is an input here: either the request
  failed, or it returned a status code.
- `check_response`: the decoded answer must hold a `homeworks` entry. Every
  record in it must carry `id`, `status`, `homework_name`,
  `reviewer_comment`, `date_updated` and `lesson_name`. The first missing key
  raises a `KeyError` naming it, scanning records in list order and keys in
  that fixed order.
- `parse_status`: looks the record's `status` up in `HOMEWORK_VERDICTS` and
  renders `Изменился статус проверки работы "<name>". <verdict>`. Any other
  status, including a missing one, raises `KeyError`.

Each raised exception is a `Fail`/`Failure` value carrying an `Error`. Its
message is the text the code builds, including the `{err}` part, which Python
renders as the `repr` of the missing key.

Files:
- `wrappers.dfy`: `Option`, `Result`, `Outcome`.
- `custom_types.dfy`: `Homework` and `JSONAnswer` with their int-or-string and
  int-or-list value unions.
- `custom_exceptions.dfy`: the `Error` datatype. It holds `APIError` and
  `BotError` and the built-in exceptions the code raises.
- `py_format.dfy`: Python's `str()` and `repr()` of record values, as they
  appear in f-strings and `KeyError` texts.
- `homework.dfy`: module `HomeworkBot` with the three operations and their
  lemmas.

## Behaviour of this revision of the code

- `check_tokens` checks only the two tokens. It does not check the chat id. It
  stops at the first failing token and does not collect every missing name.
  For each token that is set it also sends a probe request.
- `check_response` looks only at `homeworks`. It does not check
  `current_date`. It checks the six keys of every record itself.
- `parse_status` reads the name with `get`. A missing name is printed as
  `None` and does not raise.
- The poll loop (`main`) is commented out, so there is no loop to model.

## Model

| member | source | states |
|---|---|---|
| `HomeworkBot.CheckToken` | homework.py:66-86 | one token passes iff it is set and its probe answered 200; an unset token is `TypeError("Token <name> is not defined.")` whatever the probe; a failed request is `APIError("Endpoint error when checking token <name> validity.")`; any other code is `ValueError("Token <name> is not valid.")` |
| `HomeworkBot.TokenChecks` | homework.py:46-65 | the token list holds exactly two entries: `PRACTICUM_TOKEN` with its value and probe first, then `TELEGRAM_TOKEN` with its own |
| `HomeworkBot.CheckEachToken` | homework.py:66-86 | the token loop passes iff every entry passes |
| `HomeworkBot.CheckEachTokenStopsAtFirstFailure` | homework.py:66-86 | the loop raises exactly the error of the first failing entry; later entries are never consulted |
| `HomeworkBot.CheckTokens` | homework.py:45-86 | `check_tokens` passes iff both tokens are set and both probes answered 200 |
| `HomeworkBot.PracticumTokenCheckedFirst` | homework.py:46-86 | whenever the practicum token fails, its error (`TypeError`, `APIError` or `ValueError` naming `PRACTICUM_TOKEN`) is the result, whatever the telegram token and its probe are |
| `HomeworkBot.TelegramTokenCheckedSecond` | homework.py:57-86 | once the practicum token passed, the telegram token's absence, failed probe or non-200 reply gives the matching error naming `TELEGRAM_TOKEN` |
| `HomeworkBot.NoKeyMessage` | homework.py:127-132 | the text of a missing-key `KeyError` is `No key <key> in <place>: '<key>'`, the last part being the `repr` of the key the failed lookup raised on |
| `HomeworkBot.FirstMissingKey` | homework.py:127-132 | the key loop finds nothing iff every key is in the record; otherwise it returns a position whose key is absent and before which every key is present |
| `HomeworkBot.FirstMissingKeyIsFirst` | homework.py:127-132 | the key reported for a record is the first key, in list order, that it lacks |
| `HomeworkBot.CheckHomeworks` | homework.py:118-132 | the record loop passes iff every record carries every key of the key list |
| `HomeworkBot.CheckHomeworksNamesFirstMissingKey` | homework.py:126-132 | the record loop raises for the first incomplete record, naming that record's first missing key |
| `HomeworkBot.CheckResponse` | homework.py:109-132 | `check_response` passes iff `homeworks` is present, is a list and every record carries all six keys; an int under `homeworks` raises the `TypeError` of iterating an int |
| `HomeworkBot.CheckResponseMissingHomeworks` | homework.py:111-116 | an answer without `homeworks` raises `KeyError("No key homeworks in response: 'homeworks'")`, before any record is read |
| `HomeworkBot.CheckResponseNamesFirstMissingKey` | homework.py:109-132 | on a list, the error is `No key <key> in homework: '<key>'` for the first missing key of the first incomplete record: records in list order, keys in the order id, status, homework_name, reviewer_comment, date_updated, lesson_name |
| `HomeworkBot.CheckResponseAcceptsEmptyList` | homework.py:126-132 | an empty `homeworks` list always passes |
| `HomeworkBot.CheckResponseReadsOnlyHomeworks` | homework.py:109-132 | two answers with the same `homeworks` entry get the same result; `current_date` and every other key are ignored |
| `HomeworkBot.Get` | homework.py:137-138 | `dict.get` yields the value exactly when the key is present, and `None` otherwise |
| `HomeworkBot.IsVerdictCode` | homework.py:33-37 | a status is a key of `HOMEWORK_VERDICTS` iff it is one of the strings `approved`, `reviewing`, `rejected`; no int and no `None` is |
| `HomeworkBot.ParseStatus` | homework.py:135-145 | `parse_status` succeeds iff the status is one of the table's string codes; otherwise the `KeyError` reads `No key <str(status)> in verdicts: <repr(status)>` |
| `HomeworkBot.ParseStatusKnownCode` | homework.py:33-37 | for `approved`, `reviewing` and `rejected` the text is exactly the template with the record's name and that code's verdict |
| `HomeworkBot.ParseStatusUnknownCode` | homework.py:138-143 | every string code outside the three raises a `KeyError`; for a code without quotes, backslashes or non-printable characters its text is `No key <code> in verdicts: '<code>'` |
| `HomeworkBot.ParseStatusMissingStatus` | homework.py:138-143 | a record without `status` raises `KeyError("No key None in verdicts: None")` |
| `HomeworkBot.ParseStatusFailsOnlyOnVerdict` | homework.py:137-145 | adding or removing `homework_name` never changes whether `parse_status` raises; without a name the text names `None` |
| `HomeworkBot.ParseStatusDistinguishesCodes` | homework.py:140-145 | for the same name, different known codes give different texts, so the text identifies the status |
| `HomeworkBot.ParseStatusApprovedExample` | homework.py:135-145 | a record named `diplom` with status `approved` gives the full approved text |
| `HomeworkBot.ParseStatusPendingExample` | homework.py:138-143 | status `pending` raises `KeyError("No key pending in verdicts: 'pending'")` |
| `PyFormat.IntToString` | homework.py:145 | `str(i)`: digits that read back as `i`, after a leading `-` when `i` is negative |
| `PyFormat.PyStr` | homework.py:143-145 | `str()` in an f-string: `None` prints as `None`, a string as itself, an int as its decimal text |
| `PyFormat.PyRepr` | homework.py:143 | `repr()` as shown by a `KeyError`: a string between single quotes, `None` and ints as `str()` does |
| `PyFormat.NatToString` | homework.py:145 | the decimal text of a non-negative int has only digits, no leading zero and reads back as the same number |

## Left out

- `get_api_answer` (homework.py:93-106) is left out. It is an HTTP request plus `res.json()` decoding, which is network I/O.
- `check_tokens` builds and sends the probe requests (homework.py:46-65, 72-75). Only each probe's outcome is modelled. Exceptions from `send` other than `RequestException` are not modelled; they would propagate unchanged. Exception chaining (`from err`) is not modelled either.
- `send_message` and `check_api_availability` are not modelled. Both are empty stubs.
- Environment loading (`load_dotenv`, `os.getenv`) is left out. It is configuration: the token values are inputs of `CheckTokens`. `TELEGRAM_CHAT_ID`, `RETRY_PERIOD`, `ENDPOINT` and `HEADERS` are used only by I/O code.
- Logging setup, `logger.error` and the `print` placeholders are diagnostics only. They are not modelled.
- The `check_tokens()` call at import time is not modelled. It is an import side effect.
- The main poll loop is not modelled because it is commented out in the source. So there is no watermark, retry sleep or duplicate-notification suppression to model.
- `BotError` is a constructor of `Error`, but nothing in this code raises it.
- `PyFormat.PyRepr`: a string's `repr` is modelled as the string between single quotes. Python switches to double quotes and escapes characters for strings that contain quotes, backslashes or non-printable characters. This affects only the `KeyError` text of `parse_status` for such a status.
- `HomeworkBot.ParseStatusUnknownCode`: the single-quoted text it states holds only for codes without quotes, backslashes or non-printable characters. For the code `it's` Python prints `"it's"`, and it escapes backslashes and non-printable characters; `PyRepr` does not model that.
- `HomeworkBot.ParseStatus`: the `{err}` part of its `KeyError` text uses `PyRepr`, so it is weaker in the same way for a status string that needs escaping.
- The model stores the message passed to `KeyError`. `str()` of a `KeyError` would add quotes around it.
- Python typing failures other than an int under `homeworks` are not modelled. An example is a record that is not a dictionary. The declared types rule these out.
