# URL verifier server: a Dafny model of its core

The server accepts lists of URLs, probes each one and stores the resulting
URL → status map under a numbered batch id. It can later merge one or more
stored batches into a report. While a shutdown is in progress, it defers
incoming requests instead of serving them.

This project models four parts of it:

- **The result store** (`data/links.go`, module `Data`). This is a class
  `Storage` with a map from batch id to batch and a `nextID` counter. Its
  invariant `Valid()` says the stored ids are exactly `1 .. nextID-1`.
  `SaveResults` assigns the current counter value, stores the batch and
  advances the counter. `GetResults` is a read-only lookup.
- **The check path** (`api/check.go`, module `Check`).
  - URL normalisation adds `http://` when `://` does not occur in the URL.
  - A probe is available iff it got a response with a status code in [200, 400).
  - The fan-in loop folds the channel's results into a map.
  - `currentLinksCheck` and `CacheLinksCheck` store that map.
  - The handler checks for an empty list first, then the shutdown flag, then probes.
- **The report path** (`api/report.go`, module `Report`).
  - `collectReportData` merges the stored batches left to right. It skips missing ids.
  - The handler answers 400, 503, 404 or 200.
  - Two display rules from the PDF rows: truncating long URLs and the status label.
- **The lifecycle** (`server/server.go`, module `Lifecycle`). This is a class
  `Server` with the instance (`httpServer`) and the `isShutdown` flag.
  `Run` refuses when an instance exists (checked first) or when the flag is
  set. `GracefulShutdown` is idempotent, sets the flag and classifies drain
  errors. The flags also exist as a small state machine (`Flags`, `Step`,
  `Replay`). On it the model proves that no call ever clears either fact. So
  after any shutdown every `Run` is refused, and the `restart` command of
  `cli/cli.go` (module `Cli`) can never reach its replay of deferred batches.

Modelling conventions:

- The package-level globals (`storage`, `Srv`) are objects passed to the
  operations that use them.
- Locks are not modelled. Each operation is atomic.
- The network is a parameter. A `Probe` pairs the URL a goroutine was started
  for with the GET function (`string -> ProbeOutcome`) as that goroutine saw it.
  So two probes of the same URL may disagree.
- The results channel is the sequence of finished probes in arrival order.
  The model requires one arrival per input occurrence, duplicates included
  (`OnePerOccurrence`: equal multisets of URLs). It allows any order.
- Go strings are byte strings. Each element of a model `string` stands for one
  byte, so `|url|` is Go's `len(url)`.
- The deferral calls (`data.SaveLinksCache`, `data.SaveNumberLinksCache`) are
  not defined in the modelled files. They are modelled as appends to two ghost
  sequences of the class `DeferredCache.ShutdownCache`, and nothing more.
- The two copies of the status strings (`data/links.go:7-8`, `api/check.go:19-20`)
  are one definition, `Data.AvailableStatus` and `Data.NotAvailableStatus`.
- The handlers are modelled from the decoded request on. Their replies are
  datatypes with a `Code()` that gives the HTTP status.

Two consequences of the code worth stating on their own:

- No non-test code path resets `httpServer` or `IsShutdown` (only the tests
  write the exported flag directly, tests/check_test.go:74-82). So a restart
  is always refused and deferred URL batches are never replayed
  (`Lifecycle.NothingClearsFlags`, `Cli.Restart`).
- The report handler answers 404 when the merged map is empty. That includes
  ids whose stored batches are empty, not only absent ids
  (`Report.CollectEmptyIff`).

## Model

| member | source | states |
|---|---|---|
| `Data.Storage.constructor` | data/links.go:35-38 | the initial store holds no batches, its counter is 1, and the invariant holds |
| `Data.Storage.SaveResults` | data/links.go:41-51 | returns the counter value held before the call; that id was not stored; the batch is stored under it with every other entry kept; the counter grows by exactly 1; the invariant (stored ids are exactly 1..nextID-1) is preserved |
| `Data.Storage.GetResults` | data/links.go:54-62 | found iff the id is stored; when found, the stored batch; otherwise the empty map; changes nothing (no modifies clause) |
| `Data.SaveTwiceThenGet` | data/links.go:41-62 | two successive saves return consecutive ids n and n+1; lookups of those ids report found and give back exactly the batches saved (round trip); the counter grows by 2 and the store gains exactly those two entries |
| `Check.NormalizeAddsScheme` | api/check.go:121-123 | the normalised URL always contains `://`, ends with the original URL, and equals it iff the original already contained `://` |
| `Check.NormalizeIdempotent` | api/check.go:121-123 | normalising twice is the same as normalising once |
| `Check.AvailableIffSuccessOrRedirect` | api/check.go:131-138 | available iff the probe of the normalised URL got a response whose status class is 2xx or 3xx; a transport error is never available |
| `Check.Message` | api/check.go:96-102 | a probe goroutine's message carries its URL and status `available` iff the URL is available, otherwise `not available` |
| `Check.MergedKeysAndValues` | api/check.go:106-109 | the merged map's keys are exactly the URLs that arrived, and every value is one of the two status strings |
| `Check.MergedLastArrivalWins` | api/check.go:106-109 | a URL's merged status is the status of its last arrival |
| `Check.FanIn` | api/check.go:105-109 | consumes exactly len(links) arrivals; the map equals the arrival-order merge; its keys are exactly the distinct input URLs; values are only the two statuses; its size is at most len(links), with equality iff the list has no duplicates |
| `Check.CurrentLinksCheck` | api/check.go:89-115 | returns the merged map and the id it was stored under, which is the counter value before the call; the store gains exactly that entry and the counter grows by 1 |
| `Check.CacheLinksCheck` | api/check.go:142-166 | stores the same merged map under the old counter value and discards the id; one counter value is still consumed |
| `Check.Admit` | api/check.go:61-73 | the admission order of both handlers: reject iff the list is empty, before the flag; defer iff non-empty and shutting down; proceed otherwise |
| `Check.CheckPostHandler` | api/check.go:41-86 | 400 "ссылок нет" iff the list is empty; 503 iff non-empty while shutting down, with the list appended to the deferred URL batches and the store unchanged; otherwise 200 with the merged map and a fresh id that the store now maps to it |
| `Report.CollectKeys` | api/report.go:81-92 | a URL is in the report iff some listed id is stored and its batch holds that URL; absent ids contribute nothing |
| `Report.CollectLastIdWins` | api/report.go:85-89 | the reported status of a URL comes from the last listed stored id whose batch holds it (later ids overwrite earlier ones) |
| `Report.CollectEmptyIff` | api/report.go:83-89 | the merge is empty iff every listed id that is stored has an empty batch; in particular it is empty when none is stored |
| `Report.CollectReportData` | api/report.go:81-92 | returns the left-to-right union of the stored batches for the ids; only reads the store (no modifies clause) |
| `Report.ReportPostHandler` | api/report.go:24-78 | 400 "номеров нет" iff no ids; 503 iff ids while shutting down, with the ids appended to the deferred id batches and the store not read; 404 iff the merge is empty; otherwise the non-empty merge; the store never changes |
| `Report.DisplayUrl` | api/report.go:123-126 | at most 50 bytes; unchanged iff the URL has at most 50 bytes; a longer URL is shown as its first 47 bytes followed by `...`, exactly 50 bytes |
| `Report.StatusLabel` | api/report.go:132-138 | "Available" iff the status is `available`; every other status is "Not Available" |
| `Lifecycle.RunVerdict` | server/server.go:31-39 | "already running" iff an instance exists, checked before the flag; "shutting down" iff there is no instance and the flag is set; success iff neither |
| `Lifecycle.AfterRun` | server/server.go:31-43 | a run creates an instance exactly when the guard lets it through; a refused run changes nothing; the shutdown flag is never touched |
| `Lifecycle.AfterShutdown` | server/server.go:62-68 | after a shutdown the flag is set and the instance is unchanged |
| `Lifecycle.ClassifyDrainError` | server/server.go:79-89 | cancellation gives the forced/early error; a deadline gives the timeout error carrying 30 seconds; anything else is wrapped as unexpected with its cause |
| `Lifecycle.Server.constructor` | server/server.go:25 | the zero server has no instance and a clear flag |
| `Lifecycle.Server.Run` | server/server.go:28-57 | the error is `RunVerdict` of the prior flags and the new flags are `AfterRun` of them; on success the instance is set for ":" + port; on failure the instance is unchanged |
| `Lifecycle.Server.GracefulShutdown` | server/server.go:60-95 | the flag is set afterwards whatever the drain outcome and the instance is kept; if it was already set, returns no error and changes nothing; otherwise returns no error for a clean drain and the classified error for a failed one |
| `Lifecycle.Server.IsShutdown` | server/server.go:98-104 | returns the flag and changes nothing |
| `Lifecycle.NothingClearsFlags` | server/server.go:28-68 | after any sequence of `Run` and `GracefulShutdown` calls, a set instance and a set flag are still set |
| `Lifecycle.RunRefusedAfterShutdown` | server/server.go:31-39 | once the flag is set, `Run` is refused after any further sequence of calls |
| `Lifecycle.RunRefusedAfterAnyShutdown` | server/server.go:62-68 | after any `GracefulShutdown`, every later `Run` is refused |
| `Cli.Restart` | cli/cli.go:66-96 | the restart command never reaches its replay of deferred batches; afterwards the flag is set and the instance kept; it stops with the classified drain error iff the flag was clear and the drain failed; otherwise the new `Run` is refused, as "already running" whenever an instance existed |
| `DeferredCache.ShutdownCache.SaveLinksCache` | api/check.go:70 | a deferred URL list is appended to the deferred URL batches; the id batches are unchanged |
| `DeferredCache.ShutdownCache.SaveNumberLinksCache` | api/report.go:53 | a deferred id list is appended to the deferred id batches; the URL batches are unchanged |

## Left out

- The real probe (`client.Get`, the 3-second client timeout, closing the body): a probe is an uninterpreted outcome, a transport error or a status code.
- Goroutine fan-out and the buffered channel: the model only sees the finished probes in arrival order. Concurrency is not modelled.
- Go's 64-bit `int` for the `nextID` counter and for the report ids is an unbounded integer here: the counter's wrap-around after 2^63-1 saves is not modelled.
- The `sync.RWMutex` locks of the store and of the server: each operation is atomic.
- `ListenAndServe` in its goroutine, `http.Server.Shutdown` with its 30-second context, console output, and OS signal handling (`WaitForShutdownSignal`). The drain outcome is a parameter of `GracefulShutdown`.
- Lifecycle.DrainError: `errors.Is` unwrapping is not modelled. A drain error is given already classified as cancelled, deadline exceeded or other.
- Reading and JSON-decoding the request bodies, and their 400 answers: the handlers start from the decoded list. `WriterJSON` is not part of this model.
- PDF rendering (gofpdf, `time.Now`, the header lines, colours, row order) and its 500 answer when rendering fails: only the URL truncation and the status label are modelled. `sendPDFResponse` is left out.
- `data.SaveLinksCache`, `data.SaveNumberLinksCache` and `data.SDCache` are not part of this model beyond the append-only ghost sequences. The replay loop at cli/cli.go:83-88 is therefore not modelled, and it is proved unreachable.
- The rest of cli/cli.go (the console loop, `stop`, `status`, `help`, `os.Exit`), main.go and the route wiring in api/api.go, api/api-check.go and api/api-report.go.
