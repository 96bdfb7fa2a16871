# Video processing dashboard: upload intake and simulated progress

This project models the core of a small video dashboard. A client uploads a
file. The server records it as `{id, file, status: "processing", progress: 0}`
and appends that record to an in-memory list. It then starts a one-second
interval for the record. Each firing adds 20 to a counter. Below 100 the
counter is copied into the record and a snapshot is broadcast as a
`progress` event. At 100 or more the counter is clamped to 100, the record
becomes `"safe"`, a final snapshot is broadcast and the interval is cleared.
The client keeps its own list of records. It appends the record the server
returned from an upload, and on each `progress` event it replaces every
entry with the event's id.

Modules:

- `Records` (records.dfy): the record `Video` and its `Status`, plus `Option` and `Result`.
- `Progress` (progress.dfy): one record's interval as a pure state machine.
  `Ticker` holds the record, the closure counter and a stopped flag that
  stands for `clearInterval`. `TickStep` is one firing and `Run` is the first
  n firings with their emitted snapshots.
- `Schedule` (schedule.dfy): several records firing in an arbitrary
  interleaving, and the proof that they do not interfere.
- `Server` (server.dfy): the handler as a class `UploadServer`. Its fields
  are the `videos` list, the per-record counters and stopped flags, and the
  log of emitted snapshots. `Upload` and `Tick` change them in place.
- `Dashboard` (dashboard.dfy): the client's `progress` updater and its upload button.
- `Sync` (sync.dfy): the client's view against the server's record.

Status is a datatype with `Processing` and `Safe`; the source uses the
strings `"processing"` and `"safe"`. The id (`Date.now()`) and the stored file
name (chosen by the upload middleware) are parameters of `Upload`. Ids are
not claimed to be unique: two uploads in the same millisecond get the same
id. The timer is replaced by explicit calls of `Tick(i)`.

## Model

| member | source | states |
|---|---|---|
| `Server.UploadServer.constructor` | backend/index.js:21 | The server starts with no records and no emitted events. |
| `Server.UploadServer.Upload` | backend/index.js:27-38 | With no file, the upload fails with `MissingPayload` and nothing changes. Otherwise the response is a new record with the given id and file, status processing and progress 0. It is appended as the last element, earlier records are unchanged, its counter starts at 0 and running, nothing is emitted, and the table invariant is kept. |
| `Server.UploadServer.Tick` | backend/index.js:42-60 | A firing for record i changes only entry i of the record, counter and stopped tables, exactly as `TickStep` says. It appends that firing's snapshot, if any, to the emitted log and keeps every record reachable. |
| `Progress.TickStep` | backend/index.js:42-60 | A stopped ticker changes nothing and emits nothing. A live firing emits a copy of the record as it now stands, keeps the id and file, and raises the progress strictly without passing 100. It stops exactly when the raised counter reaches 100, and the record is then safe at 100. |
| `Progress.NewRecordStartsWellFormed` | backend/index.js:28-40 | A new record has status processing and progress 0, and its ticker starts at 0, running, in a reachable state. |
| `Progress.LiveTick` | backend/index.js:43-58 | A non-terminal firing raises the counter and the record's progress by exactly 20. The status stays processing, the ticker keeps running, and the emitted snapshot equals the updated record. |
| `Progress.FinalTick` | backend/index.js:43-53 | The firing that reaches 100 clamps to 100, sets status safe, emits the final snapshot equal to the updated record, and stops the ticker. |
| `Progress.TickPreservesWellFormed` | backend/index.js:42-60 | Every firing keeps the counter in {0, 20, ..., 100} and equal to the record's progress, with safe exactly when stopped exactly at 100. |
| `Progress.Run` | backend/index.js:42-60 | n firings emit at most n snapshots. Each snapshot and the final record keep the record's id and file. |
| `Progress.StoppedIsFinal` | backend/index.js:53 | Once the interval is cleared, any number of further ticks changes nothing and emits nothing. |
| `Progress.RunTraceStep` | backend/index.js:42-60 | The trace facts of n firings follow from those of n - 1 firings. |
| `Progress.RunTrace` | backend/index.js:40-60 | From any reachable state, n firings emit the values start+20, start+40, ... in strictly increasing order, each at most 100. Every snapshot but the last is processing, and the last equals the record at the end. Exactly min(n, remaining) snapshots are emitted, and the ticker is stopped exactly when none remain. |
| `Progress.RunEndsWithLastEmit` | backend/index.js:47-58 | After any number of ticks the record equals the last snapshot emitted, or the starting record if nothing was emitted. |
| `Progress.RunAfterStop` | backend/index.js:53 | Firings after the stop leave the trace unchanged. |
| `Progress.FreshUploadTrace` | backend/index.js:27-60 | For a fresh upload and any n >= 5 ticks, the emitted progress values are exactly [20, 40, 60, 80, 100] and the statuses are four processing then safe. The trace equals that of 5 ticks. |
| `Schedule.Noninterference` | backend/index.js:42-60 | Under any interleaving of firings across records, each record ends where its own ticker would after as many firings. The snapshots it sent are exactly those its own ticker would emit. |
| `Schedule.ScheduledRecordTrace` | backend/index.js:27-60 | For fresh uploads under any interleaving, each record's snapshots carry its id and the progress values 20, 40, ..., strictly increasing. There are at most five, all but the last are processing, and after the fifth the record is safe and its ticker stopped. |
| `Dashboard.ApplyProgress` | frontend/src/App.jsx:22-26 | A progress event keeps the list length. Entries with another id are unchanged, and every entry with the event's id becomes the incoming record. |
| `Dashboard.ApplyProgressKeepsIds` | frontend/src/App.jsx:24 | A progress event keeps the sequence of ids, so the order of the list is unchanged. |
| `Dashboard.ApplyProgressNoMatch` | frontend/src/App.jsx:24 | An event whose id matches no entry leaves the list unchanged. |
| `Dashboard.ApplyProgressIdempotent` | frontend/src/App.jsx:24 | Applying the same event twice gives the same list as applying it once. |
| `Dashboard.ApplyProgressLatestWins` | frontend/src/App.jsx:24 | A later event for the same id overrides an earlier one. |
| `Dashboard.ApplyProgressCommutes` | frontend/src/App.jsx:24 | Events for different ids can be applied in either order. |
| `Dashboard.Upload` | frontend/src/App.jsx:31-37 | With no file selected, or when the request fails, the state is unchanged. Otherwise the returned record becomes the last element, earlier elements are unchanged and the selection is cleared. |
| `Dashboard.UploadThenProgress` | frontend/src/App.jsx:22-37 | After an upload, a progress event for the returned record's id updates the appended entry. |
| `Sync.ClientMirrorsTicker` | frontend/src/App.jsx:22-25 | For a list ending in a record, after the snapshots of n firings, the last entry equals the server's record after those firings. Entries with other ids are untouched. |
| `Sync.MirrorAll` | frontend/src/App.jsx:22-25 | Take a list ending in a record and deliver events that all carry its id. The last entry is then the latest event, or the record if there were none. Entries with other ids are untouched. |
| `Sync.UploadAndFollow` | frontend/src/App.jsx:31-37 | After a client upload and n server ticks, the appended entry equals the server's record. From 5 ticks on it shows progress 100 and status safe. |

## Left out

- The web server, upload middleware, CORS and server start-up (backend/index.js:1-19, 69-71): framework wiring.
- Failures inside the upload middleware, such as a failed disk write: they happen before the handler runs, so the handler never creates a record.
- The `/stream/:file` endpoint (backend/index.js:63-67): it only delegates to the framework's file sending.
- `Date.now()` and the middleware's random file name: both are parameters of `Server.UploadServer.Upload`. Ids are not claimed unique.
- The interval timer and its 1000 ms delay: each firing is an explicit `Tick(i)` call, and `clearInterval` is the per-record stopped flag.
- The firing order across records is unspecified. `Schedule` models it as an arbitrary sequence of firings, not as time.
- The socket broadcast and its subscribers (backend/index.js:13-15, 23-25): `io.emit` appends a snapshot to a log. Which connected clients receive it is not modelled.
- Aliasing of the record object between the list and the interval closure: records are values, and `Tick` replaces entry i. Only those two places hold the object, so nothing observable is lost.
- The client's network calls, React state hooks and socket subscription (frontend/src/App.jsx:3, 13, 21, 27-29, 33-35): the server's answer is a parameter of `Dashboard.Upload`. The `alert` shown on the early return is not modelled.
- All rendering, theme, role toggle, dark mode and the chart (frontend/src/App.jsx:40-289), and the React bootstrap frontend/src/main.jsx: user interface.
- Sync.ClientMirrorsTicker, Sync.UploadAndFollow, Sync.MirrorAll: these apply one record's snapshots, every one of them and in emission order, after the record has been appended, and with the record as the last entry of the list. In the source the upload response arrives over HTTP (frontend/src/App.jsx:35-36) and the snapshots over the socket (frontend/src/App.jsx:22-25). A snapshot that arrives before the append finds no entry and is dropped (`Dashboard.ApplyProgressNoMatch`), so the appended entry can lag behind the server. Records appended later, and other records' events interleaved with this record's, are not covered either.
- `Server.UploadServer` and `Schedule.Board` describe the same table of records twice. No lemma ties a sequence of `Tick` calls to `RunSchedule`. The two steps agree by their contracts: `Tick` updates entry i to `TickStep` of the old ticker and appends its snapshot, and a `RunSchedule` step does the same to its tickers and log. So `Schedule.Noninterference` is proved about the functional table only.
- Ids are not unique: the code builds them from `Date.now()` (backend/index.js:29). A failed disk write never reaches the handler (see the middleware bullet). A missing stored file is only possible on `/stream/:file`, which is left out.
