# ClipSpeak core, modelled in Dafny

ClipSpeak is a tray application that reads the clipboard aloud. One long-running
instance owns a local control socket and the speech pipeline. A short-lived
`clipspeak --speak` invocation (bound to a keyboard shortcut) only forwards the
command `speak` to that instance. This project models the decision core under
the GTK, socket and subprocess plumbing:

- **the `speak` worker** (`Synthesis`). It is a `Speaker` class holding the lock
  (`locked`), the indicator icon last requested (`icon`) and an append-only
  `log` of what was scheduled on the main loop or started as a subprocess.
  `Speak` takes a non-blocking lock and drops the request silently when the lock
  is held. Otherwise it runs the checks and launches in the source's order. It
  maps every failure to its notification, and on every way out it restores the
  idle icon and releases the lock. `Speak` is proved against `Trace`, a
  stage-by-stage specification of what a run records. The lemmas about `Trace`
  state the promised properties.
- **voice selection** (`Voices`): the built-in catalog, and the choice of
  language. The detector's code is cut to two characters and kept when the
  catalog has it. Otherwise, or when detection fails, the language is English.
- **the control channel** (`Channel`, `Utf8`, `Strings`): what one accepted
  connection does with its payload (strict UTF-8 decoding, `strip`, exact match
  on `speak`); what `send_command_to_running_instance` returns; the `--speak`
  branch of the entry point; and `on_click`.
- **locating the engine** (`PathSearch`): `find_executable` as a loop over the
  `PATH` directories, proved against a recursive reference search, and the
  fallback to a `piper` beside the script.

The environment is given as oracles:
- which paths are executable (`os.access`) or exist (`os.path.exists`), as sets of paths;
- what the language detector returns;
- how each subprocess ends;
- whether the socket file exists and how a connection attempt goes.

Work handed to the GTK main loop with `GLib.idle_add` becomes an entry in the
log. `IconAfter` says which icon the indicator shows once those entries have run.

Three behaviours of the code worth knowing:
- `send_command_to_running_instance` catches only `ConnectionRefusedError`. Any
  other error while connecting or sending escapes, and the `--speak` process
  then ends with status 1, not 0 (`Channel.Trigger`).
- A payload that is not valid UTF-8 raises inside the listener loop before
  `conn.close()`, so that connection is left open (`Channel.ServeConnection`).
- A missing `aplay` is reported like an engine executable that cannot be started
  (`FileNotFoundError`), as "Dependency Error". No separate playback kind exists.
  A missing engine (no `piper` found at start-up) is reported differently, as
  "Piper TTS not found".

## Model

| member | source | states |
|---|---|---|
| `Synthesis.Speaker.Speak` | clipspeak.py:138-177 | With the lock held, nothing changes: the lock stays held, with no icon change, notification or launch. Otherwise the log grows by exactly `Trace`, the lock is released and the icon is the idle one. Either way it keeps `Valid`: the requested icon is the one the indicator shows once the log has run. |
| `Synthesis.Speaker.SpeakHoldingLock` | clipspeak.py:141-176 | The `try` block, its corrected handlers and the `finally` icon reset record exactly the run's `Trace` and leave the idle icon requested. |
| `Synthesis.Speaker.TryAcquire` | clipspeak.py:139-140 | The non-blocking acquire succeeds exactly when the lock was free, and leaves it held. |
| `Synthesis.Speaker.Release` | clipspeak.py:177 | Releasing requires the lock to be held and leaves it free. |
| `Synthesis.Speaker.Attempt` | clipspeak.py:141-167 | The `try` block records the busy icon only once the engine is known, then the launches it reached. It yields the first failing stage. |
| `Synthesis.Speaker.RunPipeline` | clipspeak.py:162-167 | Once every check passed, the engine is launched and then, only if it exited 0, the player. The failure is the run's first. |
| `Synthesis.Speaker.Report` | clipspeak.py:169-174 | The corrected handlers schedule the failure's notification, and nothing when there was no failure. |
| `Synthesis.Speaker.SpeakWithEngine` | clipspeak.py:147-167 | After the engine check: resolve, look up, check the model file, then run the engine and the player. It records exactly the launches reached and yields the first failure. |
| `Synthesis.Speaker.Run` | clipspeak.py:162-172 | A `subprocess.run` call is recorded, and it ends as `RunFailure` says. `FileNotFoundError` names `argv[0]`, a non-zero status is a `CalledProcessError`, and any other OS error is unexpected. |
| `Synthesis.Speaker.Record` | clipspeak.py:143-176 | Scheduling appends one entry to the log; an icon change becomes the requested icon. |
| `Synthesis.Speaker.constructor` | clipspeak.py:278-280 | The indicator starts with the idle icon, the log starts empty, and the lock (created at line 33) starts free. The icon invariant `Valid` holds. |
| `Synthesis.RunFailure` | clipspeak.py:162-172 | A run raises nothing exactly when the process exits with status 0. |
| `Synthesis.Trace` | clipspeak.py:175-176 | Every run that took the lock ends by requesting the idle icon. |
| `Synthesis.FirstFailure` | clipspeak.py:142-174 | A run fails iff some check fails or a process exits non-zero. A failed check is never reported as a process failure or a missing command. |
| `Synthesis.Notice` | clipspeak.py:143-174 | Every failure is reported as a desktop notification, one kind per handler. |
| `Synthesis.ReportedAsWritten` | clipspeak.py:169-174 | The handlers as written schedule at most one notification. They schedule none iff the run succeeded or the player's `CalledProcessError` reached the handler that reads its missing standard error. |
| `Synthesis.TraceAsWritten` | clipspeak.py:175-176 | As written too, every run that took the lock ends by requesting the idle icon. |
| `Synthesis.OneNoticePerFailedRun` | clipspeak.py:142-174 | With the corrected handlers, a failed run schedules exactly one notification, the one for its failure. A successful run schedules none. |
| `Synthesis.LaunchesInTrace` | clipspeak.py:162-167 | The launches in a run's log are exactly the ones its stages reached. |
| `Synthesis.LaunchesFollowChecks` | clipspeak.py:154-167 | Something is launched iff the engine, the voice and the model file are all present. The engine comes first: `--model`, `--config` under `VOICE_DIR`, the current length scale, fed the text. The player follows iff the engine exited 0: `-r 22050 -f S16_LE -t raw`, fed the engine's output. |
| `Synthesis.EarlyFailuresLaunchNothing` | clipspeak.py:142-160 | A missing engine or a missing model launches no subprocess; a failed check is always reported as a failure. |
| `Synthesis.SuccessfulRun` | clipspeak.py:162-167 | A run succeeds iff every check passes and both processes exit 0. It then records busy icon, engine, player and idle icon, and nothing else. |
| `Synthesis.NoticeIdentifiesFailure` | clipspeak.py:143-174 | Notifications for different kinds of failure have different summaries. Missing-model summaries name the language. |
| `Synthesis.TraceLeavesIdleIcon` | clipspeak.py:175-176 | Whatever the earlier log, once a run's scheduled actions have run, the indicator shows `audio-speakers-symbolic`. |
| `Synthesis.PlaybackFailureUnreported` | clipspeak.py:167-172 | As written, any run whose checks and engine succeed but whose player exits non-zero fails with no notification; the corrected handlers schedule exactly one. |
| `Synthesis.PlayerFailsInPlayer` | clipspeak.py:146-167 | In the example installation every check passes and the engine succeeds; the run fails in `aplay`, with no captured standard error. |
| `Synthesis.PlaybackFailureUnreportedAsWritten` | clipspeak.py:167-172 | As written, a player exiting with status 1 fails the run but schedules no notification. The corrected reporting schedules one. |
| `Synthesis.AsWrittenDiffersOnlyForPlayer` | clipspeak.py:167-172 | The as-written handlers differ from the corrected ones exactly when the checks and the engine succeed and the player exits non-zero. |
| `Voices.ResolveLanguage` | clipspeak.py:147-152 | The resolved language is a catalog key or `en`. |
| `Voices.ResolveLanguageFollowsDetection` | clipspeak.py:147-152 | The detector's two-character prefix is kept iff it is a catalog key. Any other resolved language is `en`, and a failed detection gives `en`. |
| `Voices.LookupFailsOnlyWithoutFallback` | clipspeak.py:149-154 | `MODELS[lang]` fails iff the language fell back to `en` and the catalog has no `en`. |
| `Voices.DefaultCatalog` | clipspeak.py:93-103 | The built-in table has an entry for the English fallback, so a fallback lookup in it never fails. |
| `Voices.DefaultCatalogLanguages` | clipspeak.py:93-103 | The built-in table covers it, en, fr, de, es, zh, ar, ru and pt. |
| `Voices.DefaultCatalogWellFormed` | clipspeak.py:93-103 | Every built-in key is a two-letter code, the length the detector's result is cut to, so every entry can be selected. |
| `Voices.DefaultCatalogEnglish` | clipspeak.py:95 | The built-in table has the English fallback: `en_US-amy-medium.onnx` with its `.json` config. |
| `Voices.DefaultCatalogScenarios` | clipspeak.py:147-152 | With the built-in table: `fr` stays `fr`, and `zh-cn` becomes `zh`. Japanese and undetectable text become `en`. |
| `PathSearch.FirstExecutableIsFirstHit` | clipspeak.py:11-18 | The reference search returns the candidate of the first `PATH` directory that has an executable one. It returns None iff no directory does. |
| `PathSearch.FirstExecutable` | clipspeak.py:14-18 | The reference search only returns an executable candidate. |
| `PathSearch.SearchInOrder` | clipspeak.py:14-17 | The loop over the directories, in order, returns what the reference search returns. |
| `PathSearch.FindExecutable` | clipspeak.py:11-18 | The loop returns the same result as the reference search, so it finds the first executable candidate, in `PATH` order, or None iff there is none. |
| `PathSearch.LocateEngine` | clipspeak.py:20-25 | `PIPER_EXE` is the `PATH` hit when there is one. Otherwise it is the script-local `piper` if that is executable, otherwise None. |
| `Strings.SplitJoin` | clipspeak.py:14 | Splitting `PATH` on `:` loses nothing: rejoining the pieces gives the original. |
| `Strings.Split` | clipspeak.py:14 | `split` yields at least one piece, and no piece contains the separator. |
| `Strings.PathJoin` | clipspeak.py:15 | The joined path is at least as long as the name, and at most one separator longer than directory and name together. |
| `Strings.PathJoinPlacesName` | clipspeak.py:15 | `os.path.join(d, name)` ends with `name`. A relative name is placed under `d`; an absolute one stands alone. |
| `Strings.Strip` | clipspeak.py:65 | `strip` returns the part of the text between leading and trailing whitespace. That part neither starts nor ends with whitespace. |
| `Strings.StripUnique` | clipspeak.py:65 | That characterisation determines the stripped text. |
| `Strings.StripPadded` | clipspeak.py:65 | Whitespace around a clean token is exactly what `strip` removes. |
| `Strings.StripEmptyIffAllSpace` | clipspeak.py:259-261 | Stripping leaves nothing iff the text is all whitespace. |
| `Strings.Prefix` | clipspeak.py:148 | `code[:2]` is a prefix of the code, of length two or the code's own length if shorter. |
| `Utf8.DecodeEncode` | clipspeak.py:65 | Strict UTF-8 decoding undoes encoding for every string. |
| `Utf8.EncodeDecode` | clipspeak.py:65 | Decoding is strict: every byte string it accepts is exactly the encoding of what it decodes to, so overlong forms, surrogates and values above U+10FFFF are refused. |
| `Utf8.EncodeDecodeFirst` | clipspeak.py:65 | The bytes of the first decoded character are that character's encoding. |
| `Utf8.DecodeRejectsIllFormed` | clipspeak.py:65 | A stray continuation byte, the overlong NUL, an encoded surrogate, a value above U+10FFFF and a truncated sequence all raise `UnicodeDecodeError`. |
| `Utf8.Decode` | clipspeak.py:65 | A decoded string has no more characters than the payload has bytes. |
| `Utf8.Encode` | clipspeak.py:83 | `str.encode()` takes one to four bytes per character. |
| `Channel.HandleCommand` | clipspeak.py:41-44 | A command schedules at most one `on_click`. |
| `Channel.ServeConnection` | clipspeak.py:62-69 | One connection schedules at most one `on_click`, and only a connection that is then closed does. A connection left open is one whose payload did not decode. |
| `Channel.ConnectionDispatchesOnlySpeak` | clipspeak.py:62-69 | A connection schedules `on_click` at most once. It does so iff its payload decodes and strips to `speak`. It is closed iff its payload decodes; an empty read counts as decoding. |
| `Channel.PaddedSpeakDispatches` | clipspeak.py:63-67 | `speak` with any surrounding whitespace, sent as UTF-8, schedules one `on_click` and is closed. |
| `Channel.SendCommand` | clipspeak.py:76-89 | A delivered payload decodes back to the command sent. |
| `Channel.NoSocketNoConnection` | clipspeak.py:77-79 | With no socket file the send returns False, whatever a connection would have done. |
| `Channel.EntryPoint` | clipspeak.py:267-273 | The `--speak` branch runs iff the first argument is `--speak`. It then exits 0 iff the send did not raise, and starts the "not running" notice iff there was no socket file or the connection was refused, and nothing else. |
| `Channel.EntryPointModes` | clipspeak.py:267 | Only the first argument selects trigger mode: arguments after `--speak` are ignored, and `--speak` elsewhere starts the tray application. |
| `Channel.Trigger` | clipspeak.py:267-273 | A trigger exits with status 0 or 1, starts at most one process, and starts one only on a status-0 exit. |
| `Channel.TriggerOutcome` | clipspeak.py:267-273 | `--speak` exits 0 whenever the send returns. It sends the "not running" notice iff the send returned False: no socket file, or a refused connection. |
| `Channel.TriggerReachesDaemon` | clipspeak.py:83 | A trigger's payload fits in one 1024-byte read and makes the running instance schedule one `on_click`. |
| `Channel.OnClick` | clipspeak.py:256-262 | A click starts at most one worker, only when the clipboard holds text, and never for empty text. |
| `Channel.OnClickStartsWorkerForText` | clipspeak.py:256-262 | A worker starts iff the clipboard holds text that is not all whitespace. It gets that text stripped: non-empty, with no whitespace at either end. |

## Left out

- Presentation: the tray icon, the menu (`build_menu`), the About dialog and the notification widgets. The model records which icon or notification was scheduled, and not how it is shown.
- Speed handling: `SPEEDS`, `load_speed`, `on_speed_change` and `update_speed_display`. These are floating-point comparisons and file I/O. `LENGTH_SCALE` enters the model only as its text, `str(LENGTH_SCALE)`, read when the worker runs.
- Catalog persistence: reading and writing `models.json` in `load_or_create_models_config`. Only the built-in table is modelled; a loaded catalog is any map. Catalog entries are pairs, so a JSON entry without exactly two file names, which would fail to unpack, is not modelled.
- Socket set-up and shutdown: `start_socket_server` (stale-file removal, bind, listen, the listener thread) and the socket removal in `on_quit`. The accept loop itself is not modelled either; only its per-connection body is. A `recv` that returns fewer bytes than were sent is not modelled: the payload is whatever one read returned.
- Threads: `Speak` runs as one atomic step; the lock's check-and-set happens in one step, which is what makes the silent drop observable. Interleavings inside a run are not modelled. Also not modelled: the main loop running the scheduled actions, beyond the icon they leave (`IconAfter`).
- External programs, given as oracle outcomes: piper, aplay, notify-send and the language detector. Exceptions other than `LangDetectException` from the detector are not modelled. Standard error is taken as already decoded text, so the `errors='ignore'` decoding is not modelled.
- Console output (`print`).
- Channel.Trigger: starting `notify-send` is recorded as a launch. That launch failing (for instance a missing `notify-send`) is not modelled.
- Python strings with lone surrogates. A Dafny `char` is a Unicode scalar value, so `text.encode()` failing on such a string is not modelled.
- Synthesis.Speaker.Report: for the player's `CalledProcessError` it schedules a "Synthesis Error" notification with an empty detail. The code as written raises `AttributeError` in that handler and schedules nothing (see Findings and `Synthesis.ReportedAsWritten`).
- Synthesis.Speaker.SpeakHoldingLock: it records the corrected `Trace`, which schedules a "Synthesis Error" notification with an empty detail when the player exits non-zero. The code as written schedules none (see Findings and `Synthesis.TraceAsWritten`).
- Synthesis.Speaker.Speak: it schedules a "Synthesis Error" notification, with an empty detail, when the player exits non-zero. The code as written schedules none (see Findings and `Synthesis.TraceAsWritten`).

## Findings

| source | as written | input that shows it | evidently intended | confidence | as-written member | corrected member |
|---|---|---|---|---|---|---|
| clipspeak.py:167-172 | `aplay` runs with `check=True` but its streams are not captured. When it exits non-zero, the `CalledProcessError` carries `stderr=None`, so the handler's `e.stderr.decode(...)` raises `AttributeError`. The `finally` block restores the icon and releases the lock, but no notification is scheduled and the exception ends the worker thread. | piper present, model file present, engine exits 0, `aplay` exits 1 | a "Synthesis Error" notification, as for a failing engine | high (by reading; not executed) | `Synthesis.PlaybackFailureUnreportedAsWritten` | `Synthesis.OneNoticePerFailedRun` |
