# WhatsApp bulk sender — a Dafny model

This project models the `WhatsAppBulkSender` class of `whatsapp_sender.py`. The class:

- reads a contact table from a CSV file;
- opens one WhatsApp Web session in Chrome;
- sends every contact a message personalised with `message.format(**contact)`, pausing between contacts;
- keeps a list of sent records and a list of failed records;
- reports counts and a success rate.

Selenium, pandas and the clock are outside the model. The browser becomes an oracle value, `Outcomes.Browser`. It says three things: whether the session opened, whether the i-th send clicked or raised (with the exception text), and the timestamp of each send. Each `time.sleep` becomes an entry of a `pauses` list.

The project has five modules, one file each:

- `Wrappers` (`wrappers.dfy`): `Option` and `Result`.
- `Phone` (`phone.dfy`): `format_phone_number` as a pure function. It covers whitespace stripping by the characters Python's `str.isspace` accepts, the `replace` chain and the `+` / `+91` prefix rule, with lemmas about the shape of the output, the prefix rule, worked examples, and exactly when normalising twice changes nothing.
- `Template` (`template.dfy`): `message.format(**contact)` as a partial function. It handles `{key}` fields and the `{{` / `}}` escapes. Its errors are:
  - `KeyError` for a missing column;
  - `ValueError` for a stray `}`, an unclosed `{`, a `{` inside a field name, or a field whose leading digits write a number above `sys.maxsize` (Python reads them as an index and checks as it goes);
  - `IndexError` for an empty or all-digit field within that bound.

  The errors come out in the order Python meets them. There is also a two-phase definition, proved equal to `Format`: parse without the row, then render with it.
- `Outcomes` (`outcomes.dfy`): what one send and one loop pass append to the two lists and to the pauses. `Run`, the loop over the first `k` contacts, is the specification the imperative loop is proved against. The lemmas about `Run` state what a run records.
- `Sender` (`sender.dfy`): class `BulkSender`. It has the fields `csvFile`, `waitTime`, `contacts`, `sentMessages`, `failedMessages`, `pauses` and `driverLive`, the last standing for `self.driver` not being `None`. The constructor sets `csvFile` and `waitTime`, and `SendMessage` and `SendToAll` read `waitTime`. The methods change the other fields in place.
  - The loop of `send_bulk_messages` is a `while` loop. It is proved against `Outcomes.Run` with loop invariants.
  - `FreshRun` uses a new sender the way the web front end does (`app.py`:157-173): load, send to all, report.

Behaviour of the code that the model keeps:

- **A missing template field aborts the whole loop.** `message.format(**contact)` runs at line 199, outside `send_message`'s `try`. So a missing field is not recorded as a failure: the loop raises, `finally` closes the browser, and the records made before are kept (`Outcomes.RunAbortsOnTemplate`).
- **`time.sleep` accepts only some lengths.** It converts the length to a signed 64-bit count of nanoseconds first. A length above 9223372036 s or below -9223372036 s raises `OverflowError` ("timestamp too large to convert to C _PyTime_t"). A negative length that converts raises `ValueError` ("sleep length must be non-negative"). Below, a *valid* wait or delay is one in `0..9223372036` (`Outcomes.CanSleep`). The web front end passes values from 2 to 60 (`app.py`:121-127).
- **An invalid `wait_time` records one contact twice.** `time.sleep(self.wait_time)` at line 157 is inside `send_message`'s `try`, after the sent record has been appended. So when it raises, the same contact also gets a failed record with the exception's text, and `send_message` returns False. For this reason the whole-run counting properties ("one record per contact", "the summary rate and the report rate agree") are stated for a valid `wait_time`.
- **An invalid `delay_seconds` at line 207 raises out of the loop**, as the template error does: `Outcomes.RunError.SleepFailed`, carrying the exception's text (`Outcomes.RunAbortsOnDelay`).
- **A failed session open returns `None`.** `send_bulk_messages` returns `None` (`NotStarted`) with nothing recorded and the driver cleared.
- **With no contacts, nothing happens.** `send_bulk_messages` returns `None` without touching the driver.

## Model

| member | source | states |
|---|---|---|
| Phone.StripStart | whatsapp_sender.py:67 | definition, no contract: the left half of `strip()`; its properties are in `Phone.StripStartShape` |
| Phone.StripEnd | whatsapp_sender.py:67 | definition, no contract: the right half of `strip()`; its properties are in `Phone.StripEndShape` |
| Phone.Strip | whatsapp_sender.py:67 | definition, no contract: `strip()` over the characters `str.isspace` accepts; its properties are in `Phone.StripStartShape`, `Phone.StripEndShape` and `Phone.StripUnspaced` |
| Phone.Cleaned | whatsapp_sender.py:67-70 | definition, no contract: strip, then the four replacements; its properties are in `Phone.CleanedFixedPoint` and `Phone.CleanedFromInput` |
| Phone.WithCountryCode | whatsapp_sender.py:73-77 | definition, no contract: the prefix rule on the cleaned number; its properties are in `Phone.CountryCodeShape` and `Phone.PrefixRule` |
| Phone.FormatPhoneNumber | whatsapp_sender.py:64-79 | the normalised number is never empty, starts with `+`, and contains none of `-`, space, `(`, `)` |
| Phone.PrefixRule | whatsapp_sender.py:73-77 | for the stripped, separator-free number `c`: if `c` starts with `+`, the result is `c`; otherwise the result starts with `+91` and is `+` followed by `c` when `c` starts with `91`, and `+91` followed by `c` otherwise |
| Phone.CountryCodeShape | whatsapp_sender.py:73-77 | the prefix rule applied to a separator-free string puts `+` first and adds no separator |
| Phone.Remove | whatsapp_sender.py:70 | one `replace(c, '')`: the result is no longer than the input, has no `c`, and takes every character from the input |
| Phone.RemoveSeparators | whatsapp_sender.py:70 | after the four replacements no separator is left and nothing was added |
| Phone.RemoveSeparatorsKeepsTheRest | whatsapp_sender.py:70 | the replace chain equals the reference filter `KeepNonSeparators`: exactly the non-separator characters, in their order |
| Phone.KeepAppend | whatsapp_sender.py:70 | removing separators from a concatenation is removing them from each part |
| Phone.KeepUnseparated | whatsapp_sender.py:70 | a string without separators is left as it is |
| Phone.StripStartShape | whatsapp_sender.py:67 | the left half of `strip()`: the result is a suffix of the input, every character removed is whitespace, and the first one kept is not |
| Phone.StripEndShape | whatsapp_sender.py:67 | the right half of `strip()`: the result is a prefix of the input, every character removed is whitespace, and the last one kept is not |
| Phone.StripUnspaced | whatsapp_sender.py:67 | `strip()` leaves a string that neither starts nor ends with whitespace unchanged |
| Phone.CleanedFixedPoint | whatsapp_sender.py:67-70 | stripping and removing separators leaves unchanged a separator-free string whose ends are not whitespace |
| Phone.CleanedFromInput | whatsapp_sender.py:67-70 | every character of the cleaned number occurs in the input and is not a separator |
| Phone.Examples | whatsapp_sender.py:64-79 | `9876543210`, `91 9876 543210`, `(98)76543210` and `+919876543210` all normalise to `+919876543210` |
| Phone.NationalNumber | whatsapp_sender.py:74-75 | a cleaned number `9876543210` gets the whole `+91` |
| Phone.NumberWithCode | whatsapp_sender.py:76-77 | a cleaned number `919876543210` gets only the `+` |
| Phone.PlusSurvivesCleaning | whatsapp_sender.py:67-73 | a number that starts with `+` keeps it through cleaning and is returned as cleaned |
| Phone.NormalFormFixedIff | whatsapp_sender.py:67-79 | a `+`-led, separator-free string is returned unchanged exactly when it does not end in whitespace |
| Phone.IdempotentIff | whatsapp_sender.py:67-79 | normalising a normalised number again changes nothing exactly when it does not end in whitespace (both directions) |
| Phone.Idempotent | whatsapp_sender.py:67-79 | when the only whitespace in the input is plain spaces, normalising twice is normalising once |
| Phone.TabSurvivesOnePass | whatsapp_sender.py:67-79 | without that precondition idempotence fails: `98\t)` gives `+9198\t`, and normalising that gives `+9198` |
| Template.Format | whatsapp_sender.py:199 | a `KeyError` names a keyword field missing from the row; an `IndexError` names an empty or all-digit field whose digits stay within `sys.maxsize` |
| Template.Parse | whatsapp_sender.py:199 | a template that parses gives literal characters and keyword fields only |
| Template.FormatIsParseThenRender | whatsapp_sender.py:199 | `format` succeeds exactly when the template parses and every field names a column of the row, and then the text is the parsed template rendered with the row |
| Template.ParseUnparse | whatsapp_sender.py:199 | printing well-formed segments with escapes and parsing the text gives the same segments back |
| Template.FormatPlain | whatsapp_sender.py:199 | text with no braces in front of a template is copied unchanged in front of its result |
| Template.FormatField | whatsapp_sender.py:199 | a keyword field is replaced by its column's text, or the call fails with `KeyError` on that key |
| Template.ExampleResolved | whatsapp_sender.py:199 | `Hi {name} from {city}` with `name = Asha`, `city = Pune` gives `Hi Asha from Pune` |
| Template.ExampleMissing | whatsapp_sender.py:199 | `Hi {missing}` on that row fails with `KeyError('missing')` |
| Template.FormatLongIndex | whatsapp_sender.py:199 | a field whose leading digits pass `sys.maxsize` fails with `ValueError`, whatever the row holds |
| Template.LongRunOverflows | whatsapp_sender.py:199 | reading `n` more digits onto an index that would pass `sys.maxsize` with `n` zeros appended is caught by the digit-by-digit check |
| Template.LongIndexOverflows | whatsapp_sender.py:199 | a field name that opens with twenty digits, the first not `0`, has too many digits |
| Template.ShortIndexFits | whatsapp_sender.py:199 | a field name of at most eighteen characters never has too many digits, so an all-digit one still gives `IndexError` |
| Template.ExampleLongIndex | whatsapp_sender.py:199 | `{99999999999999999999}` fails with `ValueError`, not `IndexError` |
| Template.ExampleLongIndexThenLetter | whatsapp_sender.py:199 | `{99999999999999999999a}` fails with `ValueError`, not `KeyError`: the digits are checked before the letter is read |
| Outcomes.Lookup | whatsapp_sender.py:195-196 | definition, no contract: `contact.get(key, default)` |
| Outcomes.PhoneOf | whatsapp_sender.py:195 | definition, no contract: the `phone_number` cell, or the empty string |
| Outcomes.NameOf | whatsapp_sender.py:196 | definition, no contract: the `name` cell, or `Unknown` |
| Outcomes.SendEffect | whatsapp_sender.py:130-170 | definition, no contract: what `send_message` appends and sleeps with a live driver; its properties are in `Outcomes.SendEffectRecords` |
| Outcomes.Step | whatsapp_sender.py:195-207 | definition, no contract: one pass of the loop body; its properties are in `Outcomes.StepLog` and `Outcomes.StepRecords` |
| Outcomes.Run | whatsapp_sender.py:193-213 | definition, no contract: the loop over the first `k` contacts, stopping at the first exception; its properties are in the `Outcomes.Run*` lemmas below |
| Outcomes.CanSleep | whatsapp_sender.py:157 | definition, no contract: the lengths `time.sleep` sleeps, `0..9223372036` s; its bounds are justified in `Outcomes.SleepConversion` |
| Outcomes.SleepError | whatsapp_sender.py:157 | definition, no contract: the text of what `time.sleep` raises, `OverflowError` outside `-9223372036..9223372036` s and `ValueError` otherwise |
| Outcomes.SleepConversion | whatsapp_sender.py:157 | a length sleeps exactly when its nanoseconds are non-negative and fit a signed 64-bit count; a length that cannot sleep gives the `OverflowError` exactly when its nanoseconds do not fit |
| Outcomes.SendEffectRecords | whatsapp_sender.py:130-170 | with a live driver, one send records one outcome when the wait is valid. The sent record exists exactly when the button was clicked and holds the normalised phone and status `sent`. A failed record holds the raw phone and the exception text; an invalid wait makes it the `ValueError` or `OverflowError` text of `time.sleep`. The wait is taken once, after a recorded send |
| Outcomes.StepLog | whatsapp_sender.py:194-207 | a loop pass that raises nothing had a template that resolved, and a valid delay unless it was the last contact. It appends the send's records and then the delay unless it was the last contact |
| Outcomes.StepRecords | whatsapp_sender.py:194-207 | whatever a pass raises, it records exactly what its send recorded, or nothing when the template failed |
| Outcomes.RunRecordsEveryContact | whatsapp_sender.py:194-207 | with a valid wait, a run over `k` contacts that raised nothing has exactly `k` records, sent and failed together |
| Outcomes.RunSentAreClicks | whatsapp_sender.py:194-207 | the sent records of such a run are exactly the sends the browser completed |
| Outcomes.RunWaits | whatsapp_sender.py:157 | such a run waited `wait_time` once per sent record, or never when the wait is not valid |
| Outcomes.RunDelays | whatsapp_sender.py:205-207 | such a run slept the delay after every contact but the last of the table |
| Outcomes.RunPauseKinds | whatsapp_sender.py:157-207 | a run sleeps nothing but the per-send wait and the delay between contacts |
| Outcomes.RunCompleted | whatsapp_sender.py:194-207 | a run over the whole table that raised nothing: sent equals clicks, the delay was taken `n - 1` times, and with a valid wait there are `n` records, one wait per sent record and `sent + n - 1` pauses in all |
| Outcomes.RunStaysStopped | whatsapp_sender.py:193-213 | once the loop has raised, the later contacts change neither the records nor the error |
| Outcomes.RunCompletes | whatsapp_sender.py:194-207 | when every contact's template resolves and the delay is valid (or there is only one contact), the loop raises nothing |
| Outcomes.RunAbortsOnTemplate | whatsapp_sender.py:199 | a template that fails for contact `j` ends the run with that `KeyError`/`ValueError`/`IndexError`, and the records of contacts before `j` are kept as they were |
| Outcomes.RunAbortsOnDelay | whatsapp_sender.py:205-207 | a delay that `time.sleep` rejects ends the run after contact `j` when more contacts follow, keeping the records before `j` and `j`'s own send, with that exception's text |
| Outcomes.TemplateFailureStops | whatsapp_sender.py:199 | the failing pass itself records nothing and raises the template error |
| Outcomes.RunSentPhones | whatsapp_sender.py:149-154 | each sent record of a run carries the normalised number of a contact processed, and status `sent` |
| Outcomes.RunFailedPhones | whatsapp_sender.py:164-169 | each failed record of a run carries the number of a contact processed, as read |
| Outcomes.SuccessRate | whatsapp_sender.py:220 | the rate is 0 for an empty whole, otherwise `rate * whole = 100 * part`, and it lies within 0 to 100 when the part does not exceed the whole |
| Sender.JobOf | whatsapp_sender.py:199-203 | definition, no contract: the run `send_bulk_messages` performs, with `message.format(**contact)` as the personaliser and `format_phone_number` as the normaliser; the `Outcomes.Run*` lemmas hold for it |
| Sender.BulkSender.constructor | whatsapp_sender.py:28-41 | a new sender has no contacts, no records, no pauses and no driver |
| Sender.BulkSender.LoadContacts | whatsapp_sender.py:43-62 | loading succeeds exactly on a readable table that has both `phone_number` and `name`; only then are the contacts replaced, otherwise they are unchanged |
| Sender.BulkSender.OpenWhatsAppWeb | whatsapp_sender.py:81-112 | returns True exactly when the logged-in page appeared; a driver is live afterwards exactly then, so a failed open leaves none |
| Sender.BulkSender.CloseBrowser | whatsapp_sender.py:236-241 | afterwards no driver is live, whatever the state before, and nothing else changes; a second call changes nothing |
| Sender.BulkSender.SendMessage | whatsapp_sender.py:114-170 | without a driver nothing is appended; with one the lists and pauses grow by `SendEffect`. The result is True exactly when a driver was live, the button was clicked and the wait did not raise |
| Sender.BulkSender.SendBulkMessages | whatsapp_sender.py:172-221 | with no contacts or a failed open, nothing is recorded and `None` is returned. Otherwise the lists grow by the run over all contacts and the driver is cleared on every path. The result is the exception that ended the loop, or the summary `total = len(contacts)`, `sent`, `failed` and `success_rate = sent / total * 100` |
| Sender.BulkSender.SendToAll | whatsapp_sender.py:193-213 | the loop appends exactly the records and pauses of `Run` over all contacts and returns the exception that ended it, if any |
| Sender.BulkSender.SendToContact | whatsapp_sender.py:194-207 | one pass appends exactly what `Step` describes and raises what it raises |
| Sender.BulkSender.GetReport | whatsapp_sender.py:223-234 | the report holds both lists and their lengths. Its rate is 0 when both lists are empty, otherwise `rate * (sent + failed) = 100 * sent`; it always lies within 0 to 100 |
| Sender.CompletedSummary | whatsapp_sender.py:193-221 | over a live session with contacts, the result completes whenever every template resolves and the delay is valid. A completed summary counts every contact and the clicks; with a valid wait, `sent + failed = total` and the summary rate equals the report rate |
| Sender.FreshRun | whatsapp_sender.py:183-221 | a fresh sender that loads, sends and reports never leaves a driver live. It returns `None` exactly when loading failed, the table was empty or the open failed. It completes whenever every template resolves and the delay is valid. On completion `total = n`, `sent` = clicks = the report's `total_sent`, `failed` = `total_failed`, and the rate is `SuccessRate(sent, n)`. The delay is taken `n - 1` times. With a valid wait, `sent + failed = n`, the two rates agree, and one wait is taken per sent message |

## Left out

- Selenium is replaced by the `Browser` oracle: the Chrome options, `driver.get`, the two `WebDriverWait` timeouts, the XPath lookups and the click. Which exceptions Selenium raises, and their texts, are oracle values.
- The chat URL of line 136 is left out with it. `send_message`'s `message` argument is used only there, so the model accepts it and never reads it.
- `Sender.BulkSender.OpenWhatsAppWeb`: the model keeps only whether a driver is live. Which Chrome process is quit, and the fact that opening over a live driver orphans the old one, are not modelled.
- The model assumes `driver.quit()` never raises. It is called at lines 110, 212 and 239. If it raised, Python would propagate the exception with `self.driver` still set. So "no driver afterwards" in `Sender.BulkSender.OpenWhatsAppWeb`, `Sender.BulkSender.CloseBrowser` and `Sender.BulkSender.SendBulkMessages` holds only under that assumption.
- pandas is replaced by `Sender.CsvSource`: `read_csv` becomes a value that is a missing file, another read error, or a table of column names and string rows. CSV parsing, encodings and pandas' types are not modelled.
- `Sender.CsvSource` does not tie each row's keys to the table's columns. pandas' `to_dict('records')` gives every row every column, so after a successful load the defaults `''` and `'Unknown'` of lines 195-196 are never used. The model allows rows without those keys: it covers more inputs than pandas produces.
- `Sender.BulkSender.GetReport` returns copies of the two lists as values. Python's report holds the same list objects (lines 226-227), so sends made after the report was taken show up in it. The model does not capture that aliasing.
- `str(phone)` on numeric or NaN cells is left out: phone cells are strings.
- `Template.Format` covers only `{key}` fields and the `{{` / `}}` escapes. Format specs (`{name:>5}`), conversions (`{name!r}`), attribute and index access, and non-ASCII digits in field names are not modelled.
  - A field with such a suffix and no `{` before its first `}` is looked up with the whole text as its key, so it fails with `KeyError`. Python formats a keyword field that names a column, raises `KeyError` on the bare name when it does not, and raises `IndexError` for a positional field with a suffix, such as `{:>5}` or `{0!r}`.
  - A field with a `{` before its first `}` fails with `ValueError`, for example a spec with a nested field such as `{a:{b}}`, where Python substitutes.
- `Outcomes.SuccessRate` and `Sender.BulkSender.GetReport` compute the rate in exact reals. Python's float rounding is not modelled.
- Sleep lengths are whole seconds. A fractional `wait_time` or `delay_seconds`, and the rounding `time.sleep` applies to it, are not modelled.
- Logging is left out.
- `datetime.now()` and the sleeps:
  - `datetime.now()` becomes the oracle's timestamp for each send. The sent and failed records of one call share it, where Python reads the clock twice.
  - `time.sleep` only adds a `Pause` entry; no time passes.
- The default arguments are not modelled: `wait_time = 2`, `delay_seconds = 5`, `name = ""`. Every call passes all values.
- `app.py` is not part of this model: the Streamlit page, the upload, the temporary file and the row-range slice at `app.py`:161. `Sender.FreshRun` follows only its order of calls.
- `Outcomes.Run` is stated for any personalise and normalise functions. Only `Sender.JobOf` ties it to `Template.Format` and `Phone.FormatPhoneNumber`.
- `Sender.FreshRun`: the rate clause is stated as `SuccessRate(sent, n)`. The arithmetic `rate * n = 100 * sent` is proved once, in `Outcomes.SuccessRate`'s contract, and not restated in this member.
