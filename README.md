# Download bookkeeping of a YouTube download server, in Dafny

The repository is a small Flask service that downloads YouTube videos with
yt_dlp. It comes in two variants. `main.py` keeps one progress record per
session in a table keyed by session id. `app.py` keeps a single global
record. This project models the bookkeeping around the downloads:

- the progress-hook state machine that turns engine events
  (`downloading` / `finished` / `error` / other) into record updates;
- the creation, polling and eviction of records;
- the worker's final update (title or error);
- the pure string functions: the link canonicaliser `clean_youtube_url`,
  the download-name sanitiser, the `%` and `p` stripping, and the output
  paths and format selectors built from the request.

Modules:

- `Wrappers` (`wrappers.dfy`): `Option`.
- `Text` (`text.dfy`): `str.replace(c, '')` as `RemoveChar`.
- `YoutubeUrl` (`youtube_url.dfy`): `clean_youtube_url`. The anchored
  pattern is read step by step: scheme, optional `www.`, path, 11-character
  id. It is proved equal to "one of the eight accepted prefixes followed by
  a valid id".
- `SafeTitle` (`safe_title.dfy`): `re.sub(r'[\\/:"*?<>|]+', '_', title)`.
- `DownloadForm` (`download_form.dfy`): the request fields and their
  defaults, read the same way by both servers.
- `Progress` (`progress.dfy`): the record, its status values, the engine
  event, and the text handed to `float`.
- `SessionApp` (`session_app.dfy`, for `main.py`): the hook rule `Apply`,
  the request handlers as functions (`Plan`, `Poll`, `Retrieve`), and the
  class `Server`. Its `store: map<string, Record>` field is updated in place
  by `Accept`, `Hook`, `Finish`, `Fail` and `Cleanup`. Its `pending` field
  holds the clean-ups that served retrievals have queued and that have not
  run yet. `Step` is the effect of one operation on both fields, and every
  state-changing method is proved to have exactly that effect. `Exec` runs
  a sequence of steps, so the lemmas about whole traces apply to the class.
- `SingleApp` (`single_app.dfy`, for `app.py`): the same for the one global
  record, in the class `Server` with field `progress`, and with its own
  `Step` and `Exec`.

Python's `float` is not modelled. It is a parameter `parse: string ->
Option<real>`, where `None` is the `ValueError`. File existence is a
parameter `onDisk: string -> bool`. The session id, which the server makes
from the clock, is an argument of `Accept`. The worker's engine outcome is
the argument of `Finish` (the title, or `None` when the engine reported
none) or of `Fail` (the exception text).

## Model

| member | source | states |
|---|---|---|
| `Text.RemoveChar` | main.py:79 | the result holds no `c` and is no longer than the input |
| `Text.RemoveCharMultiset` | main.py:79 | deletion removes exactly the occurrences of `c`: the multiset of the result is the input's with `c` at count 0 |
| `Text.RemoveCharAppend` | main.py:28 | deletion distributes over concatenation, so the surviving characters keep their order |
| `Text.RemoveCharIdentity` | app.py:48 | the text is unchanged exactly when it holds no `c` |
| `Progress.PercentText` | main.py:28 | the text passed to `float` holds no `%`: a given `_percent_str` is passed on with every `%` removed, and a missing one gives `"0.0"`; `app.py:28` does the same |
| `YoutubeUrl.TakeId` | main.py:19 | a captured id is 11 characters of `[A-Za-z0-9_-]` taken from the front of the rest of the link |
| `YoutubeUrl.VideoId` | main.py:19 | whatever the matcher captures is a valid 11-character id |
| `YoutubeUrl.CleanYoutubeUrl` | main.py:18-22 | the result is the input itself or the canonical watch link followed by a valid id |
| `YoutubeUrl.VideoIdAfterPrefix` | main.py:19 | after any of the eight accepted prefixes, the matcher captures exactly the id that follows, if there is one |
| `YoutubeUrl.VideoIdFromPrefix` | main.py:19-21 | when the matcher captures an id, some accepted prefix followed by that id starts the link |
| `YoutubeUrl.CleanAccepted` | main.py:19-21 | an accepted prefix, a valid id and any tail is cleaned to `https://www.youtube.com/watch?v=<id>`; the tail is dropped |
| `YoutubeUrl.CleanRejected` | main.py:22 | a link that no accepted prefix plus valid id starts is returned unchanged |
| `YoutubeUrl.CleanIdempotent` | main.py:18-22 | cleaning a cleaned link changes nothing |
| `SafeTitle.SkipRun` | main.py:150 | skipping a run shortens a text that starts with a forbidden character and stops at an allowed one |
| `SafeTitle.SkipRunSuffix` | main.py:150 | what a run skip removes is a prefix made only of forbidden characters |
| `SafeTitle.SkipRunAppend` | main.py:150 | a run that ends inside `u` is skipped in `u + v` as in `u` |
| `SafeTitle.Sanitize` | main.py:150 | the download name holds none of the nine forbidden characters (backslash, slash, colon, double quote, star, question mark, both angle brackets, vertical bar) and is no longer than the title |
| `SafeTitle.SanitizeClean` | main.py:150 | a title without forbidden characters is kept as it is |
| `SafeTitle.SanitizeRun` | main.py:150 | a whole non-empty run of forbidden characters becomes one `_` |
| `SafeTitle.SanitizeAppend` | main.py:150 | runs are maximal: splitting the title anywhere outside a run and sanitising the parts gives the same name |
| `SafeTitle.KeptSkipRun` | main.py:150 | skipping a run loses no allowed character |
| `SafeTitle.SanitizeKeeps` | main.py:150 | every character that is neither forbidden nor `_` survives, in order |
| `SafeTitle.SanitizeIdempotent` | main.py:150 | sanitising twice is sanitising once |
| `SessionApp.Apply` | main.py:24-39 | `downloading` with a parsed value sets that percentage and `Downloading`; a parse failure sets 0 and keeps the status; `finished` sets 100 and `Downloaded`; `error` sets `'Download failed'` and `Error`; any other event keeps the record; the title is never touched |
| `DownloadForm.HeightOf` | main.py:79 | the height cap is `720` when no resolution is given, and otherwise the given resolution with every `p` removed, so it never contains `p`; `app.py:48` reads it the same way |
| `SessionApp.Selector` | main.py:103-110 | `mp4` selects `bestvideo[height<=R]+bestaudio/best`, `mp3` `bestaudio[ext=m4a]`, any other format leaves the selector unset |
| `SessionApp.Plan` | main.py:76-90 | a missing or empty link (`UrlGiven` false) gets `No URL provided` with the session id; otherwise the job gets the cleaned link, the output path `OutputPath` = `downloads/<id>.<format>` (format by default `mp4`, `FormatOf`) and the selector |
| `SessionApp.Poll` | main.py:133-138 | a poll answers the stored record exactly when the id is given and known, and a client error otherwise |
| `SessionApp.Retrieve` | main.py:140-151 | 404 exactly when the file is absent; otherwise the file at `FilePath` = `downloads/<id>.<format>` (the id reads `None` when missing, `IdText`) under the sanitised title (`TitleOf`: `Downloaded_File` for an unknown session) |
| `SessionApp.Step` | main.py:39 | one operation leaves every session it does not concern exactly as it was; only a served retrieval queues a clean-up, and a clean-up that was not queued does nothing |
| `SessionApp.ExecIsolation` | main.py:39 | over any sequence of steps (`Exec`), operations about other sessions leave a session's presence and record unchanged |
| `SessionApp.UnservedNeverEvicted` | main.py:146-159 | a session is evicted only by a clean-up that a served retrieval of it queued: without one, it stays in the table, even if retrievals answer 404 |
| `SessionApp.PollIsolation` | main.py:136-137 | a poll for a session that no operation touched answers as before |
| `SessionApp.ExecKeepsRange` | main.py:26-35 | if the parser only yields values in [0, 100], every record's percentage stays in [0, 100] over any trace |
| `SessionApp.OutputPathInjective` | main.py:85 | two sessions writing the same format never share an output path; across formats paths can coincide |
| `SessionApp.RetrieveFindsJobFile` | main.py:144 | retrieval looks for the very path the worker of that session wrote |
| `SessionApp.DownloadNameSafe` | main.py:149-151 | the download name holds no forbidden character before its extension |
| `SessionApp.PollAfterRequest` | main.py:88-90 | right after an accepted request, a poll sees `{0, Initializing, "", ""}` |
| `SessionApp.PollAfterEvict` | main.py:157 | right after the clean-up of a session has run, polls for it are client errors (a later report can bring the record back, see `ReportRecreatesEvicted`) |
| `SessionApp.RetrieveIgnoresStatus` | main.py:142-151 | a file that exists is served whatever the record says, also for an unknown id or one still initialising |
| `SessionApp.ReportRecreatesEvicted` | main.py:24-39 | after eviction, a progress report for the same id recreates its record from the blank record and a poll sees it |
| `SessionApp.StatusCanRegress` | main.py:26-35 | a `downloading` event after `finished` moves a session from `Downloaded` back to `Downloading` |
| `SessionApp.DownloadedAtZero` | main.py:31-35 | an unparsable report after `finished` leaves status `Downloaded` at percentage 0 |
| `SessionApp.Server.constructor` | main.py:16 | the table starts empty and no clean-up is queued |
| `SessionApp.Server.Accept` | main.py:73-131 | the reply is `Plan`; an accepted request adds exactly the entry `{0, Initializing, "", ""}` for its id; a rejected one leaves the table as it was; the new state is `Step` of a `Request` |
| `SessionApp.Server.Hook` | main.py:24-39 | only the entry for its own id is written: `Apply` of the stored record, or of the blank record when the id is missing (`Get`); the new state is `Step` of a `Report` |
| `SessionApp.Server.Finish` | main.py:117-119 | the title is set to the engine's (default `Downloaded File`, `FinishedTitle`) and nothing else changes; an evicted session is left alone; the new state is `Step` of a `Complete` |
| `SessionApp.Server.Fail` | main.py:121-123 | the error text and `Error` are recorded for a session still in the table; nothing else changes; the new state is `Step` of a `Crash` |
| `SessionApp.Server.Lookup` | main.py:133-138 | the reply is `Poll` of the current table |
| `SessionApp.Server.DownloadFile` | main.py:140-159 | the reply is `Retrieve` of the table; the table is unchanged; a served file queues the clean-up of its session and a 404 queues nothing (`Step` of a `Fetch`) |
| `SessionApp.Server.Cleanup` | main.py:153-157 | runs only a queued clean-up: the session is evicted (a missing or absent id changes nothing) and the clean-up leaves the queue (`Step` of an `Evict`) |
| `SingleApp.Apply` | app.py:26-35 | `downloading` changes only the percentage (the parsed value or 0); `finished` sets `Downloaded` and 100; every other event, `error` included, keeps the record |
| `SingleApp.Selector` | app.py:72-76 | `mp4` selects `bestvideo[height<=R]+bestaudio/best[height<=R]`, any other format `bestaudio` |
| `SingleApp.Step` | app.py:26-91 | only a request or a worker outcome changes the error or the title; only a failed worker produces `Error`; every request resets the record to blank |
| `SingleApp.Plan` | app.py:46-53 | a missing or empty link gets `No URL provided`; otherwise the job gets the link as given, `downloads/output.<format>` and the selector |
| `SingleApp.Retrieve` | app.py:100-106 | 404 exactly when `downloads/output.<format>` is absent, else that file |
| `SingleApp.OutputShared` | app.py:53 | any two accepted requests for one format write the same file |
| `SingleApp.RetrieveFindsJobFile` | app.py:103 | retrieval reads the path the worker wrote |
| `SingleApp.ReportsKeepErrorAndTitle` | app.py:26-35 | over any sequence of steps (`Exec`), progress reports alone never change the error or the title, and never produce `Error` |
| `SingleApp.ExecKeepsRange` | app.py:27-35 | if the parser only yields values in [0, 100], the percentage stays in [0, 100] over any trace |
| `SingleApp.FinishKeepsPercentage` | app.py:86-88 | a successful worker sets `Downloaded` and leaves the percentage as the hook last wrote it |
| `SingleApp.Server.constructor` | app.py:24 | the record starts as `{0, "", "", ""}` |
| `SingleApp.Server.Start` | app.py:41-94 | the record is reset to `{0, "", "", ""}` on every request, rejected or not (`Step` of a `Request`); the reply is `Plan` |
| `SingleApp.Server.Hook` | app.py:26-35 | the record becomes `Apply` of the old one (`Step` of a `Report`) |
| `SingleApp.Server.Finish` | app.py:85-88 | the title (default `Downloaded File`) and `Downloaded` are recorded; nothing else changes (`Step` of a `Complete`) |
| `SingleApp.Server.Fail` | app.py:89-91 | the exception text and `Error` are recorded; nothing else changes (`Step` of a `Crash`) |
| `SingleApp.Server.Poll` | app.py:96-98 | a poll returns the record as it is |
| `SingleApp.Server.DownloadFile` | app.py:100-106 | the reply is `Retrieve` |

## Behaviour worth knowing

Each of these is what the code does, and the model does the same.

- `main.py` does not refuse a session id that already exists. Accepting it
  again overwrites the record.
- `download_file` in `main.py` serves the file whenever it exists on disk.
  It does not look at the status, so a session that is still initialising,
  or an id with no record at all, is served if the file is there
  (`RetrieveIgnoresStatus`). There is no "not complete yet" reply.
- Eviction is not final. A progress report that arrives for an evicted id
  creates the record again from the blank record (`ReportRecreatesEvicted`).
- Output paths are `downloads/<id>.<format>`. They are distinct for distinct
  ids only within one format (`OutputPathInjective`). Across formats they can
  coincide: id `1.5` with `mp4` and id `1` with `5.mp4` both give
  `downloads/1.5.mp4`.
- Statuses are not terminal in either variant. After `finished`, a further
  `downloading` event sets `Downloading` in `main.py` (`StatusCanRegress`).
  An unparsable percentage leaves a `Downloaded` record at 0
  (`DownloadedAtZero`). In `app.py` the worker sets `Downloaded` whatever
  the percentage is (`FinishKeepsPercentage`).
- The percentage is not clamped to [0, 100]. It stays in range only if
  `float` yields values in range (`ExecKeepsRange`).
- In `main.py` a successful worker records the title only. It never sets
  `Downloaded`; that status comes from the engine's `finished` event.
- The error text of a failed worker is `str(e)`, which may be empty.
- `app.py` writes every download to `downloads/output.<format>`, so
  concurrent downloads share one file (`OutputShared`). Its hook ignores
  `error` events.

## Left out

- Threads: each operation (a request, a progress report, the worker's
  outcome, a clean-up) runs atomically, and traces interleave whole
  operations only. Races inside an operation are not modelled: for example
  a clean-up `pop` (main.py:157) that runs between the hook's `get`
  (main.py:25) and its store write (main.py:39) would let the hook put back
  the old record, with its old title and status, rather than a blank one.
- The 300-second wait before the clean-up.
- yt_dlp: `extract_info`, postprocessors, ffmpeg location, cookie file
  option, `noplaylist`/`quiet` flags. The engine is reduced to the events
  it reports and its final outcome.
- Number parsing: `float` is an uninterpreted parameter.
- Session ids: the id from `time.time()` is an argument.
- The file system: `os.makedirs`, `os.remove` of a previous output
  (`app.py`), `send_file`, and the 500 reply when one of these fails. File
  existence is a parameter.
- `SessionApp.Server.Cleanup`: does not model the deletion of the file,
  only the eviction of the record, because files are outside the model.
- `/video_info`, `/`, CORS, logging, the cookie file written from the
  environment, the SSL override and port configuration: Flask and
  environment plumbing.
