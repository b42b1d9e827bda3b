# Connection health checks and feedback log, modelled in Dafny

This project models the two Python modules of the hyperhdr-led tooling that
decide and record things:

- `connection_checker.py`. `check_all_connections` loads `config.json` and
  `secrets.json`, falling back to `{}` and logging why. It then runs four
  guarded checks in sequence:
  - HyperHDR over HTTP
  - the ESP32 over HTTP
  - the Philips Hue bridge over HTTP
  - the Raspberry Pi over SSH

  Each check writes exactly one entry into the `results` dict. The round
  ends by logging a summary line that holds the dict's `repr`.
- `codex_feedback_handler.py`. `_ensure_logs` creates the `logs/` files when
  they are missing. `run_all_checks` reads each of the repository's Python
  files, computes four flags from six substring tests (`try:`, `except`,
  `return`, `system.log`, `config.json`, `secrets.json`) and logs one line
  per file. `simulate_failure_log` appends a
  dummy error record to the JSON feedback list.

Everything outside these modules is an input of the model:
- the `requests` and `paramiko` imports
- the HTTP replies, keyed by URL
- the SSH session, keyed by (host, user, password)
- the parsed JSON files
- the Python files found and their text
- the wall clock, a sequence of readings consumed one per `now()`

The state these modules change in place is Dafny classes:
- `ConnectionChecker.SystemLog`: the system log's lines.
- `FeedbackHandler.LogDir`: the system log, the feedback file and the order of
  writes to the `logs/` directory.
- `LogFormat.Clock`: the readings taken so far.

Each method is proved against a specification function. The properties the
code promises are lemmas about those functions.

Files:
- `Wrappers.dfy`: `Option` and `Result`.
- `PyText.dfy`: the Python string operations the code relies on:
  - `str.strip()` with Python's whitespace set
  - `pat in text`
  - `str(bool)`
  - `repr(str)`
- `LogFormat.dfy`: the line format `"<timestamp> - <message>\n"`, the
  stamping of a run of messages, and the clock.
- `ConnectionChecker.dfy`: `connection_checker.py`.
- `FeedbackHandler.dfy`: `codex_feedback_handler.py`.

The status words are the code's own: `"online"`, `"offline"`,
`"auth failed"`, `"missing paramiko"`, `"unknown"`, or the stripped SSH
output. Authentication failure is `"auth failed"` with a space. A
non-empty SSH output is stored itself, not as `"online"`. There is no
`"unavailable"` status.

## Model

| member | source | states |
|---|---|---|
| ConnectionChecker.SystemLog.Log | connection_checker.py:14-18 | appends exactly one line `timestamp + " - " + message + "\n"` stamped with the next clock reading; earlier lines are unchanged |
| ConnectionChecker.LoadJson | connection_checker.py:21-27 | returns the parsed document, or `{}` when the file cannot be read or parsed; logs "Failed to load <name>: <exc>" exactly in the second case |
| ConnectionChecker.HttpCheck | connection_checker.py:38-47 | an HTTP block is `"online"` iff requests is importable, the URL could be built and the GET answered with `resp.ok`; otherwise `"offline"`; a message is logged iff something raised, and never more than one |
| ConnectionChecker.HttpFailureCases | connection_checker.py:39-47 | requests missing, a failing `.get` and a raising GET each give `"offline"` with the one message "<Device> check failed: <exception>" |
| ConnectionChecker.RunHttpCheck | connection_checker.py:38-47 | the imperative block returns the status `HttpCheck` gives and appends exactly its messages to the log |
| ConnectionChecker.RunHttpChecks | connection_checker.py:37-70 | the three HTTP blocks run in order; their statuses and the log lines are those of the three checks, concatenated in order |
| ConnectionChecker.SshCheck | connection_checker.py:72-96 | the SSH entry is a fixed status word or a non-empty string without surrounding whitespace; at most one message is logged |
| ConnectionChecker.RunSshCheck | connection_checker.py:72-96 | the guarded import and the credential lookups, then the session; status and log lines are those `SshCheck` gives |
| ConnectionChecker.RunSshSession | connection_checker.py:84-96 | the stripped output or `"unknown"`, `"auth failed"` with "SSH authentication failed", or `"offline"` with "SSH check failed: <exc>" |
| ConnectionChecker.SshEntry | connection_checker.py:73-96 | the SSH entry case by case: import failure gives `"missing paramiko"`; output gives the stripped text, or `"unknown"` when it is all whitespace; authentication rejection gives `"auth failed"`; any other error gives `"offline"` |
| ConnectionChecker.RunChecks | connection_checker.py:35-96 | the four guarded blocks build the results map `Checks` gives and log exactly `CheckMessages` in order |
| ConnectionChecker.CheckAllConnections | connection_checker.py:30-99 | the returned dict is `Round` of the two files and the environment; the log grows by exactly `RoundMessages`, one clock reading per line |
| ConnectionChecker.RoundEntries | connection_checker.py:35-99 | whatever the files and probes do, the dict has exactly the keys hyperhdr, esp32, hue, ssh, and each HTTP entry is "online" or "offline" |
| ConnectionChecker.HttpEntries | connection_checker.py:41-67 | each HTTP entry is "online" iff requests is importable, the configuration is a JSON object and the GET of `http://ip:port/json-rpc`, `http://ip/ping` or `http://ip/api/token/config` (with the `.get` defaults) answered ok |
| ConnectionChecker.UnreadableFilesUseDefaults | connection_checker.py:21-66 | with both files unreadable, every lookup takes its default ("localhost", "8090", ""), the URLs are the literal default URLs, and each file logs one "Failed to load" line |
| ConnectionChecker.RequestsMissing | connection_checker.py:39-70 | without requests all three HTTP entries are "offline", each with its "requests not available" failure |
| ConnectionChecker.ChecksIsolated | connection_checker.py:37-70 | two environments that agree on the requests import and on the ESP32 and Hue replies give the same ESP32 and Hue outcomes and entries, whatever the HyperHDR reply: one check's failure does not affect the next |
| ConnectionChecker.SummaryIsLast | connection_checker.py:98 | a round logs between one and seven lines, and the last is the connection summary of the returned dict |
| ConnectionChecker.StatusWordRepr | connection_checker.py:98 | each fixed status word appears in the summary's dict repr as `'word'` |
| ConnectionChecker.Summary | connection_checker.py:98 | the summary line starts with `Connection summary: {'hyperhdr': `, ends with the dict's closing `}`, and is longer than the four entries together |
| PyText.Repr | connection_checker.py:98 | `repr(str)` quotes with `"` exactly when the text holds `'` and no `"`, and with `'` otherwise, the same quote at both ends; the quoted body is at least as long as the text and reads back to it exactly |
| PyText.UnescapeEscape | connection_checker.py:98 | escaping as `repr` does loses nothing: reading the escapes back gives the original text |
| PyText.Strip | connection_checker.py:88-89 | `strip()` gives the empty string iff the text is all whitespace; otherwise the result begins and ends with non-whitespace and is the text with only whitespace removed at each end |
| LogFormat.StampedAppend | connection_checker.py:14-18 | logging two runs of messages one after the other stamps their concatenation, each line with the next reading |
| LogFormat.Clock.Now | codex_feedback_handler.py:22 | each `now()` takes the next clock reading |
| FeedbackHandler.LogDir.EnsureLogs | codex_feedback_handler.py:11-17 | afterwards both files exist; a missing system log is created empty and a missing feedback log as `[]`; existing files are untouched; when both already exist nothing changes (idempotent) |
| FeedbackHandler.EnsuredFeedback | codex_feedback_handler.py:15-17 | the feedback file exists afterwards, and it changed iff it was absent |
| FeedbackHandler.EnsureWrites | codex_feedback_handler.py:11-17 | `_ensure_logs` writes nothing iff both files exist, and at most two files otherwise |
| FeedbackHandler.LogDir.Log | codex_feedback_handler.py:20-24 | ensures the files, then appends exactly one stamped line; earlier lines are kept |
| FeedbackHandler.FileFlags | codex_feedback_handler.py:37-40 | has_try iff the text contains both "try:" and "except"; has_return iff it contains "return"; logs_system iff it contains "system.log"; uses_config iff it contains "config.json" or "secrets.json" |
| PyText.ContainsIffOccurs | codex_feedback_handler.py:37-40 | the substring test `pat in text` holds iff `pat` occurs at some index of `text` |
| FeedbackHandler.FileLineReportsOccurrences | codex_feedback_handler.py:37-44 | the line for a readable file prints each flag as True exactly when its patterns occur in the text |
| FeedbackHandler.ErrorLineIffUnreadable | codex_feedback_handler.py:32-45 | a file gets an "ERROR reading" line iff it could not be read, and a "FILE" line iff it could |
| FeedbackHandler.ScanMessages | codex_feedback_handler.py:31-46 | one message per file in the order given, then "All checks completed" last |
| FeedbackHandler.LogDir.RunAllChecks | codex_feedback_handler.py:27-46 | the loop logs exactly `ScanMessages(files)`, one stamped line each, continues past unreadable files, and leaves the feedback file as `_ensure_logs` made it |
| FeedbackHandler.Simulated | codex_feedback_handler.py:52-57 | after the call the list is the old list, or `[]` when the file is missing or corrupt, with one `{"timestamp", "error": "Dummy error"}` record appended; a stored value that is not a list leaves the file as it was |
| FeedbackHandler.LogDir.SimulateFailureLog | codex_feedback_handler.py:49-60 | the feedback file becomes `Simulated` of the old one; the list is written before "Simulated failure logged" is appended; when `.append` raises, nothing but `_ensure_logs` happens and the exception text is returned |
| FeedbackHandler.SimulationsAppend | codex_feedback_handler.py:57-59 | n calls on a stored list keep its records in order and append n records, one per call and in call order, without deduplication |
| FeedbackHandler.MissingOrCorruptStartsEmpty | codex_feedback_handler.py:52-57 | starting from a missing or corrupt file, n calls leave exactly the n dummy records |
| FeedbackHandler.DummyRecords | codex_feedback_handler.py:57 | one `{"timestamp": t, "error": "Dummy error"}` record per timestamp, in order |

## Left out

- The network and the SSH client are inputs and are not modelled:
  - `requests.get` with its timeout
  - `paramiko.SSHClient`, `connect`, `exec_command`, `close`
  - the bytes-to-text `decode()`

  A `close()` or decode failure after the output was read is one of the session's `Failed` replies.
- JSON parsing and serialisation (`json.load`, `json.dump` with indent) are not modelled. A file is given as unreadable or as the parsed value. A configuration value is given as the text `str()` would print, so the port 8090 becomes "8090". A feedback record that is not a dummy error is kept as opaque text.
- Filesystem effects are not modelled: `mkdir`, `touch`, `open`, `rglob`, and path resolution from `__file__`. The files are fields, and the list of Python files is a parameter. Failures of the log writes themselves are not modelled.
- `datetime.now().isoformat()` is a sequence of opaque readings. No property of the clock values is modelled.
- The `__main__` block that prints the summary (connection_checker.py:102-104) is not modelled.
- PyText.Repr: escapes the quote, the backslash and ASCII control characters as Python does. It does not model Python's escaping of non-printable non-ASCII characters in `repr`.
  `PyText.Unescape` reads back only the escapes `PyText.Escape` writes, not every escape a Python literal allows.
- Concurrency is not modelled: the code has none, and two writers of the feedback file are not considered.
