# Verified model of the Seal pipeline and of atlasctl

The project models two parts of the repository and proves properties of them with Dafny 4.11. `dafny verify
dfyconfig.toml` checks everything.

**Seal** is a job pipeline over four Redis lists, an object store and a table. The protocol is a state machine with
one step for every call to Redis, the store or the database (`SealProtocol`): a request inserts a row and pushes a
job; any number of workers move jobs to the processing list, generate, sign and upload, push a result, and finish,
requeue or dead-letter; one consumer pops results and overwrites rows; a CronJob puts dead letters back. Workers and
the consumer may crash before any call. Every call may be answered with success, with an error that means nothing
happened, or with an error although it happened (`Ok`, `Err`, `Lost`). All theorems quantify over all runs.
`SealServices` holds the programs themselves as classes that change shared lists call by call while every other
process interferes; each method is proved to leave a state that a run of the protocol reaches, so what is proved about
runs holds of the programs. The services log their calls, and the log is that of the run (`SealCalls`): no program
skips a call and invents its answer.

**atlasctl** keeps workloads in a file tree. `Text` and the `Gateway` modules model its line editor for the shared
gateway manifest, `Template`, `TemplateOrder` and `Rendering` the rendering of templates, `SeedFile` and `VaultSeed`
the seed file and the Vault writes, `FileTree`, `Disk` and `Sync` the file system and the filtered copy, `Workloads`,
`Promotion`, `Creation`, `Commands`, `Removal` and `Lifecycle` the commands new, enable, disable and delete.
Specifications are functions on texts, maps and trees; the programs are loops and classes proved against them. Maps
are iterated in an arbitrary order. Any call to the file system may fail half way, unless the file system is marked
reliable.

## What turned out false

- A worker whose requeue is answered with an error although it happened also dead-letters the job. Either such a reply
  or the CronJob gives a job a fourth attempt; both together turn a completed document back to failed. `SealFaults`
  says for every class of allowed faults which guarantee holds in all its runs.
- A job vanishes if the CronJob puts it back while a worker has yet to remove it and another worker crashes on it.
- Copies left in processing by crashed workers are counted for every job; one crash in the third attempt at a job
  leaves three of them, which end all retries for ever.
- The log line at shutdown speaks of finishing the job in hand, but the job's calls use the cancelled context. If they
  all fail, the job is neither requeued nor dead-lettered nor reported, and its copy stays
  (`SealLimits.CancelledAttempt`).
- The length of the whole processing list is compared with the bound, so other workers' jobs take retries away: three
  attempts for every dead letter are exact with at most one worker only (`SealShared.ThreeAttemptsExactly`).
- The manifest editor finds listeners by substring, so adding `seal` after `seal-api` is skipped. The exact condition
  is `GatewayRuns.Separate`.
- Rendering depends on the order of the map exactly when a value opens another key (`TemplateOrder.Tame`); writing
  extra secrets to Vault exactly when two of them with different values have names that differ in case only.
- A variable in a seed file that begins with `VL_<GROUP>_<APP>` and goes on without an underscore, as one of an
  application with a longer name, is taken for an extra secret under its full name (`SeedFile.LastLineCounts`).
- Disabling undoes enabling exactly on `Workloads.Restorable` trees: among others, a leftover resources directory, an
  empty application or group directory, or a missing routes directory prevent it. Applications of the same name in two
  groups share route and listener.

## Model

| member | source | states |
|---|---|---|
| `SealStorage.CompletedImpliesStored` | apps/seal/seal-worker/internal/worker.go:178-216 | In every reachable state, with crashes, failed calls and lost replies anywhere, a completed row has path `<id>.pdf` and no error, and the bucket holds under that key a PDF of that row's own text, signed if every worker has a certificate. |
| `SealStorage.Reachable` | apps/seal/seal-api/internal/repository.go:79-85 | Every run keeps the whole safety invariant: status, path and error of a row come from one and the same result, or none was written yet; every stored object belongs to its document. |
| `SealStorage.DownloadServesTheDocument` | apps/seal/seal-api/internal/handler.go:155-161 | In every reachable state exactly the completed documents have a download link, `<endpoint>/seal-outputs/<id>.pdf`; the object is there and was made of the requested document's text. |
| `SealStorage.VerifyNamesTheObject` | apps/seal/seal-api/internal/handler.go:183-197 | Exactly the completed documents are called valid, each with the name of an object that is there. |
| `SealStorage.VerifyTruthfulIff` | apps/seal/seal-api/internal/handler.go:187-197 | `/verify` answers `valid` for every completed document; in all runs the object then carries a signature if and only if no worker runs without a certificate. |
| `SealFailures.FailedRowsSayWhy` | apps/seal/seal-worker/internal/worker.go:115-201 | In every reachable state a failed row names no object, and its error quotes the answer to the very call that failed for this document: `pdf generation: ` or `pdf sign: ` and the message, or `upload: upload failed after 3 retries: ` and the message of the third upload, the first two of which failed as well. |
| `SealFailures.CompletedRowsWereDelivered` | apps/seal/seal-worker/internal/worker.go:128-216 | In every reachable state the PDF of a completed row was generated, signed if the worker has a certificate, and stored within three attempts, and each of these calls was answered with success. |
| `SealFailures.DeadLettersWereGivenUp` | apps/seal/seal-worker/internal/worker.go:243-267 | Every dead letter failed an attempt in one of these ways, and after a failed attempt its worker found three copies or more in processing, or had the count or the requeue answered with an error. |
| `SealLimits.RetryOrDeadLetter` | apps/seal/seal-worker/internal/worker.go:243-273 | And the other way round, whatever the answers: after a failed attempt, with fewer than three copies in processing, the job goes back to the head of the queue; if that cannot be done, or there are more copies, or the count is not answered, it is pushed to the head of the DLQ, and in any case its removal from processing is next. |
| `SealFinality.RetryBound` | apps/seal/seal-worker/internal/worker.go:243-260 | For any number of workers and any interleaving, with crashes and failing calls, a job that the CronJob has not put back and none of whose requeues was answered with an error although it happened is attempted at most three times, and reported at most once per attempt. |
| `SealFaults.RetryBoundExactly` | apps/seal/seal-worker/internal/worker.go:243-260 | No job is ever attempted more than three times, in all runs of a class of allowed faults, if and only if the class allows neither lost requeue replies nor the CronJob; either alone has a run with a fourth attempt. |
| `SealProgress.ThreeMovesPerJob` | apps/seal/seal-worker/internal/worker.go:61-82 | A run without a lost requeue reply and without the CronJob makes at most three moves per pushed job, crashes and errors included. |
| `SealFinality.CopiesAreAttempts` | apps/seal/seal-worker/internal/worker.go:243-260 | For every waiting job and every job a worker holds (not put back by the CronJob, no lost requeue reply), the copies in `seal:processing` are exactly its attempts, although the length of the whole list is what is compared with the bound. |
| `SealFinality.OneHolder` | apps/seal/seal-worker/internal/worker.go:72-80 | No two workers hold the same job, and a held job waits in no list, unless its requeue was answered with an error although it had happened. |
| `SealFaults.OneHolderExactly` | apps/seal/seal-worker/internal/worker.go:72-80 | No two workers ever hold one job if and only if no requeue reply may be lost; the CronJob does no harm here. |
| `SealFinality.FailuresThenOneCompletion` | apps/seal/seal-worker/internal/worker.go:115-216 | The results ever pushed for a document are failures followed by at most one completion, unless its job met both a lost requeue reply and the CronJob. |
| `SealFinality.CompletedIsFinal` | apps/seal/seal-api/cmd/api/main.go:100-142 | A row that is completed never changes again, whatever follows in the run, with the same exception. |
| `SealFaults.FinalityExactly` | apps/seal/seal-api/cmd/api/main.go:100-142 | Completed rows are final, in all runs of a class of allowed faults, if and only if the class does not allow both lost requeue replies and the CronJob. |
| `SealFinality.NoSilentLoss` | apps/seal/seal-worker/internal/worker.go:262-273 | A pushed job is waiting, in processing, in the DLQ, or its PDF is stored, with crashes, errors and the CronJob anywhere, unless the CronJob puts it back while a worker has yet to remove it; a failed dead-letter push followed by the removal is the only other way out. |
| `SealFaults.LossExactly` | apps/seal/charts/seal/templates/cronjob.yaml:26-27 | No pushed job ever vanishes if and only if the CronJob may not put a job back that a worker has yet to remove. |
| `SealFinality.BadMessagesNeverArrive` | apps/seal/seal-worker/internal/worker.go:87-124 | The branches for undecodable messages, bad ids and empty texts are never taken for jobs the API made. |
| `SealLimits.BadMessageIsRemoved` | apps/seal/seal-worker/internal/worker.go:87-113 | What would become of them: a message that is not JSON or whose id does not parse is taken out of processing and leaves no other trace. |
| `SealLimits.EmptyTextIsReported` | apps/seal/seal-worker/internal/worker.go:115-124 | An empty text is reported as failed with `empty input text`, without an object, and counted like any failure. |
| `SealProgress.MeasureDecreases` | apps/seal/seal-worker/internal/worker.go:64-81 | Every step that changes something, other than a submission or the CronJob's, brings the pipeline strictly closer to rest. |
| `SealProgress.BusyRunsEnd` | apps/seal/seal-worker/internal/worker.go:64-81 | There is no endless activity: a run of effective steps is no longer than the measure it starts from. |
| `SealProgress.NoDeadlock` | apps/seal/seal-worker/internal/worker.go:84-226 | Short of rest, some fault-free step changes something. |
| `SealQuiescence.Quiescence` | apps/seal/seal-worker/internal/worker.go:84-273 | When a fault-free run is at rest, every document is either completed, stored and in no DLQ, or failed with its job in the DLQ exactly once; none is pending and processing is empty. Nothing is assumed about the number of workers or the interleaving. |
| `SealQuiescence.RestIsReachable` | apps/seal/seal-api/cmd/api/main.go:97-157 | From every state of a fault-free run without the CronJob, some fault-free continuation of at most `Measure` steps ends at rest. |
| `SealQuiescence.CleanStep` | apps/seal/seal-worker/internal/worker.go:84-273 | The fault-free invariant (every job accounted for, every row the result of what was reported so far) is kept by every fault-free step. |
| `SealSolo.FirstInFirstOut` | apps/seal/seal-worker/internal/worker.go:64-81 | With one worker and no faults, outcomes come in submission order whatever was requeued; processing holds zero to two copies of the head of pending between jobs; a dead-lettered job was attempted exactly three times. |
| `SealSolo.SoloWorkSnoc` | apps/seal/seal-worker/internal/worker.go:243-260 | With one worker and no faults, `3 * pending - processing` never rises in a worker step and falls with every move. |
| `SealShared.ThreeAttemptsExactly` | apps/seal/seal-worker/internal/worker.go:243-260 | In all fault-free runs without the CronJob every dead letter was attempted exactly three times, if and only if there is at most one worker; a second one has a run that dead-letters a job after its first attempt. |
| `SealLimits.LostRequeueBreaksTheBound` | apps/seal/seal-worker/internal/worker.go:256-259 | A concrete run in which a requeue takes effect but is answered with an error: the job is attempted a fourth time. |
| `SealLimits.LostRequeueBreaksFinality` | apps/seal/charts/seal/templates/cronjob.yaml:26-27 | A concrete run in which such a lost reply and the CronJob turn a completed document back to failed. |
| `SealLimits.ReprocessedJobCanVanish` | apps/seal/charts/seal/templates/cronjob.yaml:26-27 | A concrete run in which a dead letter put back by the CronJob disappears from all lists without being stored. |
| `SealLimits.ReprocessedIsNext` | apps/seal/charts/seal/templates/cronjob.yaml:26-27 | The CronJob makes the newest dead letter the very next job. |
| `SealLimits.AbandonedForever` | apps/seal/seal-worker/internal/worker.go:269-273 | A copy in processing whose worker crashed stays there through every continuation. |
| `SealLimits.ThreeAbandonedCopiesEndRetries` | apps/seal/seal-worker/internal/worker.go:244-254 | Once three such copies exist, every failed attempt at any job goes to the DLQ, for ever. |
| `SealLimits.OneCrashEndsRetries` | apps/seal/seal-worker/internal/worker.go:243-260 | A concrete run that gets there: two failing attempts at one job and a crash in the third leave three copies; whatever follows, no worker requeues again. |
| `SealLimits.CancelledAttempt` | apps/seal/seal-worker/internal/worker.go:64-71 | From any state in which a worker has a job, if all its calls fail from then on, as with the cancelled context: the attempt ends, the job is neither requeued nor dead-lettered nor reported, its copies stay in processing, and no list and no object changes. |
| `SealServices.Worker.Upload` | apps/seal/seal-worker/internal/storage.go:42-60 | The bounded retry loop: success leaves exactly these bytes under the key, and the worker about to report completion; after `maxRetries` failed puts the last error is what is reported. |
| `SealServices.Worker.RetryOrDLQ` | apps/seal/seal-worker/internal/worker.go:243-260 | The failed attempt: with every other process active between any two calls and without a crash, lists, store, table and the log of calls are what a run of the protocol makes them that ends with the worker idle, so each call of that run was made and answered as recorded; undisturbed, the job is back at the head of the queue, or in the DLQ without a copy left if three copies were in processing. |
| `SealServices.Worker.PushToDLQ` | apps/seal/seal-worker/internal/worker.go:262-267 | Dead-letter push and removal, likewise; undisturbed, the job is the newest dead letter and has no copy left. |
| `SealServices.Worker.RemoveFromProcessing` | apps/seal/seal-worker/internal/worker.go:269-273 | The removal of every copy, likewise: the call is made, and only its own answer can leave the copies there. |
| `SealServices.Worker.Process` | apps/seal/seal-worker/internal/worker.go:84-226 | One job from the queue, without a crash: every state on the way is reached by a run of the protocol whose calls to Redis, generator, signer and bucket are the logged ones, in order and with these answers, so all theorems above hold of it, among them what a failed row says and why, and no step is taken without its call. |
| `SealServices.Worker.Run` | apps/seal/seal-worker/internal/worker.go:61-82 | The polling loop, without a crash; when this is the only worker and nothing fails, `3 * pending - processing` polls empty both lists. |
| `SealCalls.AnsweredRunsAreClean` | apps/seal/seal-worker/internal/worker.go:61-82 | If Redis answers every call a run is made of, no step of a worker in that run is anything but fault-free. |
| `SealServices.Deployment.SoundMeansClean` | apps/seal/seal-worker/internal/worker.go:61-82 | So, whoever else is active, a Redis that answers leaves the programs no error branch but those of generator, signer and bucket. |
| `SealServices.Api.CreateDocument` | apps/seal/seal-api/internal/handler.go:75-106 | An empty text is refused without effect; otherwise an insert is made, answered with the id exactly if its own answer was good; the row is fresh and holds the text, and the last event is the push of its job, which is queued exactly if that call took effect; a failed push is still answered with the id. |
| `SealServices.Api.ConsumeOne` | apps/seal/seal-api/cmd/api/main.go:100-142 | The pop is made, and a Redis that answers answers it; the oldest waiting result is taken exactly if the answer is good and one is there; it is written to its document's row, which shows exactly that result if the update took effect. |
| `SealServices.Redis.BLMove` | apps/seal/seal-worker/internal/worker.go:72 | BLMOVE LEFT RIGHT moves the head of pending to the tail of processing, or times out on an empty list. |
| `SealServices.Redis.LRem` | apps/seal/seal-worker/internal/worker.go:269-273 | LREM with count 0 removes every equal element. |
| `SealServices.Redis.PushJob` | apps/seal/seal-api/internal/queue.go:50-68 | RPUSH appends at the tail. |
| `SealServices.Redis.PopResult` | apps/seal/seal-api/internal/queue.go:74-83 | BLPOP takes the head of the results. |
| `SealServices.Documents.UpdateStatus` | apps/seal/seal-api/internal/repository.go:79-85 | An update overwrites status, path and error of the matching row, and no row if the id is unknown. |
| `SealServices.Documents.CreateDocument` | apps/seal/seal-api/internal/repository.go:55-62 | An insert adds a pending row under an id not used before. |
| `Gateway.GatewayFile.Remove` | tools/atlasctl/pkg/gateway/gateway.go:34-86 | The rewriting of the file by two index loops is the specified removal; it reports whether anything was removed and changes nothing otherwise. |
| `Gateway.GatewayFile.FindEnd` | tools/atlasctl/pkg/gateway/gateway.go:54-74 | The three-branch scan for the end of a block is "while blank or indented deeper than the marker". |
| `Gateway.GatewayFile.FindStart` | tools/atlasctl/pkg/gateway/gateway.go:42-52 | The first line that is the marker up to trailing blanks. |
| `Gateway.GatewayFile.Append` | tools/atlasctl/pkg/gateway/gateway.go:97-110 | Trailing newlines are trimmed and, after exactly one, the eleven lines of the template are put, with the name, the decimal numeral of the port, the host name and the certificate in their places. |
| `Gateway.DecimalIsNumeral` | tools/atlasctl/pkg/gateway/gateway.go:22-32 | A number is rendered as the digits that a reader from left to right takes for it, without leading zeros. |
| `Gateway.GatewayFile.Has` | tools/atlasctl/pkg/gateway/gateway.go:88-95 | Substring search for the marker; an unreadable file has no listener. |
| `Gateway.GatewayFile.Apply` | tools/atlasctl/pkg/gitops/gitops.go:187-213 | Adding is skipped if the marker is found anywhere in the text; otherwise the block is added literally, with `port: 443`; removing is skipped if there is no marker line. |
| `GatewayFrame.RemovedRange` | tools/atlasctl/pkg/gateway/gateway.go:54-74 | For arbitrary text: the removed lines are one contiguous range that starts at the first marker line and holds only blank lines and lines indented deeper; it ends at a visible line that is not deeper, or at the end. |
| `GatewayFrame.RemovedLines` | tools/atlasctl/pkg/gateway/gateway.go:76-83 | Everything outside that range survives in order, but for empty lines. |
| `GatewayFrame.ShallowLinesSurvive` | tools/atlasctl/pkg/gateway/gateway.go:40-83 | Of the visible lines at listener indentation or shallower exactly the marker line goes. |
| `GatewayFrame.MarkerCounts` | tools/atlasctl/pkg/gateway/gateway.go:40-83 | The number of marker lines drops by one for the removed application and is unchanged for every other. |
| `GatewayFrame.RemoveUndoesAppend` | tools/atlasctl/pkg/gateway/gateway.go:34-110 | For every file that ends in exactly one newline, does not start with one, and has no line for the listener: appending and then removing gives back the same bytes, exactly when the name does not end in a blank; otherwise nothing is found to remove. |
| `GatewayList.HasIsShadowing` | tools/atlasctl/pkg/gateway/gateway.go:88-95 | In a manifest made of a fixed part, which may hold listeners of any form, and rendered blocks, the substring search finds `a` exactly if a line of the fixed part contains its marker, `a` begins some listed name `b`, or `https-a` begins `b-cert`. |
| `GatewayRuns.StepRefines` | tools/atlasctl/pkg/gitops/gitops.go:187-213 | One change of the file is one operation on the abstract ordered list. |
| `GatewayRuns.RunRefines` | tools/atlasctl/pkg/gitops/gitops.go:187-213 | Over any run of changes, with any DNS-label names none of which is removed from the fixed part, the file is exactly the fixed part followed by the blocks of the abstract list, each name at most once. |
| `GatewayRuns.ListenersAreTheAddedNames` | tools/atlasctl/pkg/gitops/gitops.go:187-213 | The same of the file: if so, it holds after its fixed part a block exactly for the names whose last change was an addition. |
| `GatewayRuns.ListsTheAddedExactly` | tools/atlasctl/pkg/gateway/gateway.go:88-95 | After every run over a set of names the listed ones are those whose last change was an addition, if and only if no name is mentioned in the fixed part or found in the block of another. |
| `GatewayUndo.UndoneExactly` | tools/atlasctl/pkg/gateway/gateway.go:34-110 | For every text and every name without a line break: adding a listener, if the workload has a gateway, and removing it gives back the text if and only if, where something is added, the name does not end in a blank and the text ends in exactly one newline and does not start with one, or is just one; and where nothing is added, no line is its marker. |
| `GatewayUndo.ListenersAfter` | tools/atlasctl/pkg/gitops/gitops.go:187-213 | Whatever the text: a change adds or removes exactly one marker line of its own application, or none if there is nothing to do, and none of any other application. |
| `Rendering.Render` | tools/atlasctl/pkg/template/template.go:55-81 | For arbitrary text, the loop folds the replacement of all sixteen keys in the order the map yields them; for a text that is a template, with values none of which opens another key, what it returns is the template with all holes filled at once. |
| `Rendering.HostnameFromPattern` | tools/atlasctl/pkg/template/template.go:33-53 | A host name that was not given is what rendering the configured pattern with the application gives; filling defaults twice is filling them once. |
| `Rendering.HostnameShown` | tools/atlasctl/pkg/template/template.go:49-51 | In rendered text the key `HOSTNAME` is the given host name, or the pattern with the application in its place. |
| `Rendering.IdentityShown` | tools/atlasctl/pkg/template/template.go:58-61 | If no value opens another key, `{{APP}}`, `{{APP_UC}}` and `{{GROUP}}` are rendered as application, its name in capitals, and group. |
| `Rendering.RepositoryShown` | tools/atlasctl/pkg/template/template.go:33-39 | Likewise repository path and gateway port, with the configured values for what is not given. |
| `Rendering.ChartShown` | tools/atlasctl/pkg/template/template.go:40-45 | Likewise chart repository, by default the repository, and chart revision. |
| `Template.OrderDoesNotMatter` | tools/atlasctl/pkg/template/template.go:77-80 | For every template of literals and holes, and values with holes of their own none of which is to be filled, the replacements in any order, each used any number of times, are the simultaneous substitution. |
| `Template.ReplaceFillsHole` | tools/atlasctl/pkg/template/template.go:78 | One textual replacement fills exactly one hole of the template, wherever it stands. |
| `Template.RemainingHoles` | tools/atlasctl/pkg/template/template.go:77-80 | The outcome shows a hole exactly if the hole has no value and was in the template or in an inserted value: unknown holes survive, no known hole remains. |
| `TemplateOrder.OrderFreeExactly` | tools/atlasctl/pkg/template/template.go:77-80 | For all templates and all orders of the keys the outcome is the same, if and only if no value contains another key or ends in the beginning of one, unless that key stands for itself. |
| `Rendering.RenderOrderExactly` | tools/atlasctl/pkg/template/template.go:55-81 | The same of the sixteen keys and their values, defaults filled in. |
| `TemplateOrder.TameFills` | tools/atlasctl/pkg/template/template.go:77-80 | Under that condition every order of the keys fills all holes at once. |
| `Template.ReplaceAllIdle` | tools/atlasctl/pkg/template/template.go:50 | Replacing changes nothing exactly if the pattern does not occur or is replaced by itself. |
| `SeedFile.SecretSeedEnv` | tools/atlasctl/pkg/template/seed.go:44-54 | Header and one line per secret, each secret once, in the order the map yields them. |
| `SeedFile.LoadParams` | tools/atlasctl/pkg/seed/seed.go:101-158 | Reading the file line by line gives the specified parameters; a missing file or an over-long line is an error. |
| `SeedFile.RoundTrip` | tools/atlasctl/pkg/seed/seed.go:113-151 | Printing the secrets in any order and loading the file gives back exactly the secrets, split into the four known ones and the rest, and all of them under their full names, if and only if names hold no `=` or line break, values no line break or trailing white space, and no line is longer than the scanner takes. Group and application are normalised alike on both sides. |
| `SeedFile.LoadedIsClean` | tools/atlasctl/pkg/seed/seed.go:123-134 | Whatever the file, no name read from it holds a `=` or a line break and no value a line break or white space at its end. |
| `SeedFile.LoadedComesFromLines` | tools/atlasctl/pkg/seed/seed.go:123-151 | Whatever the file: each of the four known values comes from a line for exactly `VL_<GROUP>_<APP>_<KEY>`, every extra secret from a variable that begins with `VL_<GROUP>_<APP>`, and nothing but what lines set is there. |
| `SeedFile.LastLineCounts` | tools/atlasctl/pkg/seed/seed.go:133-151 | Every line that sets a variable decides its value; without the prefix it changes nothing else, with the prefix and an underscore it sets the secret named by the rest, and with the prefix alone, as for an application whose name is longer, an extra secret under its full name. |
| `SeedFile.NormalAt` | tools/atlasctl/pkg/seed/seed.go:113-115 | In the names of variables dashes are underscores and lower case is upper case, character by character. |
| `SeedFile.LineLimit` | tools/atlasctl/pkg/seed/seed.go:123-124 | A line can be read exactly if it is shorter than 64 KiB. |
| `VaultSeed.ParseMapping` | tools/atlasctl/pkg/seed/seed.go:45-89 | The entries of the lines that have exactly two fields and an `=` in the second, in order; a missing file has none. |
| `VaultSeed.EntryRoundTrip` | tools/atlasctl/pkg/seed/seed.go:59-83 | An entry written as a line is read back as the same entry. |
| `VaultSeed.LooseEntry` | tools/atlasctl/pkg/seed/seed.go:59-83 | However its two words are indented and set apart, by blanks, tabs or a carriage return, a line is read as the same entry. |
| `VaultSeed.NoEntry` | tools/atlasctl/pkg/seed/seed.go:59-72 | Blank lines, comments, lines that are not two words and words without `=` are passed over. |
| `VaultSeed.Group` | tools/atlasctl/pkg/seed/seed.go:314-331 | The checking loop builds the specified nested map, or stops at the first undefined variable or undecodable value. |
| `VaultSeed.GroupedIsChecked` | tools/atlasctl/pkg/seed/seed.go:316-326 | Nothing is grouped exactly if the variable of some entry is undefined, or is to be decoded and cannot be. |
| `VaultSeed.GroupedPlaces` | tools/atlasctl/pkg/seed/seed.go:327-330 | Exactly the paths and keys that some entry names are there, and no path is empty. |
| `VaultSeed.LastEntryWins` | tools/atlasctl/pkg/seed/seed.go:330 | Every key of every path holds the value of the variable of the last entry that names it, decoded if its name ends in `_B64`. |
| `VaultSeed.Vault.WriteGroups` | tools/atlasctl/pkg/seed/seed.go:332-337 | Each path is written once; on success the store is the old one overridden by the grouped values, whatever the order; on failure only paths already reached have changed, and perhaps the last. |
| `VaultSeed.Vault.WriteVault` | tools/atlasctl/pkg/seed/seed.go:280-346 | Nothing is written if the Redis password or the mapping file cannot be read, or the variable of any entry is undefined or cannot be decoded. Otherwise every place that is named ends up with the value of the last entry that names it, no other path changes, and the outcomes on failure are as above; without a mapping, the standard and extra secrets are written under `secret/workloads/<group>/<app>`. |
| `VaultSeed.StandardSecrets` | tools/atlasctl/pkg/seed/seed.go:288-305 | Which secrets are standard and what each of them holds, unless an extra secret takes its place. |
| `VaultSeed.ExtraSecretsClash` | tools/atlasctl/pkg/seed/seed.go:303-305 | Without a mapping, what is written is independent of the order of the map exactly if no two extra secrets with different values have names that differ in case only. |
| `Sync.CopyDir` | tools/atlasctl/pkg/gitops/gitops.go:133-159 | The recursive copy is the overlay of the source over the destination, and on a reliable file system it succeeds exactly if nothing of the other kind is in the way; whatever fails, nothing outside the destination changes. |
| `Sync.SyncInfraResources` | tools/atlasctl/pkg/gitops/gitops.go:101-131 | Likewise without `gateway.yaml`. |
| `Sync.SyncResources` | tools/atlasctl/pkg/gitops/gitops.go:60-99 | The overlay without what stays behind; on success every part of the source other than `app.yaml`, `.secret-seed`, `vault`, names ending in `.tmpl` and `infra/gateway.yaml` is in the destination, and nothing else of the destination is added or changed; on a reliable file system it succeeds exactly if nothing of the other kind is in the way. |
| `Sync.SyncIsOverlay` | tools/atlasctl/pkg/gitops/gitops.go:60-99 | The overlay by the filter is what these names say: parts that do not stay behind have the same bytes at the same relative path, every other place of the destination and everything outside it is as before. |
| `Sync.SyncIntoNothing` | tools/atlasctl/pkg/gitops/gitops.go:60-99 | From an absent destination the result is exactly the filtered source. |
| `Sync.SyncTwice` | tools/atlasctl/pkg/gitops/gitops.go:60-99 | Running it a second time succeeds and changes nothing. |
| `Commands.CopyWorkloadManifest` | tools/atlasctl/pkg/gitops/gitops.go:46-58 | Directories on the way and one file; nothing else changes however it ends. |
| `Commands.ApplyGatewayListener` | tools/atlasctl/pkg/gitops/gitops.go:187-213 | The manifest's text is changed as specified, and no other file. |
| `Commands.RemoveEmptyDir` | tools/atlasctl/pkg/gitops/gitops.go:170-178 | Only an empty directory goes, and on a reliable file system every empty one does. |
| `Commands.Enable` | tools/atlasctl/cmd/enable.go:45-128 | Without force, refused without effect if the promoted manifest is there already or the workload's directory or `app.yaml` is missing. On success the manifest, the resources, the route and the listener are where the cluster looks for them, at literal paths, and the tree is exactly the one specified node by node; on a reliable file system it succeeds exactly if it is not refused and nothing is in the way; however it ends, only the workload's own places, the manifest and directories on the way change. |
| `Promotion.EnabledInPlace` | tools/atlasctl/pkg/gitops/gitops.go:32-44 | What the specified tree holds: manifest at `<workloads>/<group>/<app>.yaml`, resources in `<app>/resources`, route at `<routes>/<app>.yaml`, and a listener for `<app>.atlas` with port 443 and certificate `<app>-cert`. |
| `Promotion.CanEnableExactly` | tools/atlasctl/cmd/enable.go:95-128 | The checks spelled out: what is to be copied is there, no file is where a directory must be, and no directory where a file must be. |
| `Removal.Disable` | tools/atlasctl/cmd/disable.go:38-108 | Refused without effect if the workload is not enabled. On a reliable file system it succeeds exactly if it is, the gateway manifest is there and the route can be removed; then manifest, resources, route and listener are gone, directories left empty as well, everything else is as before, and the tree is exactly the one specified node by node; however it ends, nothing is created and nothing foreign goes away. |
| `Removal.Delete` | tools/atlasctl/cmd/delete.go:34-74 | Refused without effect while the workload is enabled or if its directory is missing; on a reliable file system it succeeds exactly if `<scaffold>/<group>/<app>` is there and `<workloads>/<group>/<app>.yaml` is not, and then the directory goes, and the group's if it is left empty. |
| `Creation.New` | tools/atlasctl/cmd/new.go:47-127 | Refused without effect if group or repository is not given or something is there already; on success every template is rendered into its place and `.secret-seed` is the seed file; on a reliable file system it succeeds exactly if, besides, all secrets could be generated and no file's path runs through another's; however it ends, only the workload's directory is written. |
| `Creation.NewNamesShown` | tools/atlasctl/cmd/new.go:56-104 | In the files of a new workload the namespace is `<group>-<app>` and the service account the application unless given, and the host name `<app>.atlas`. |
| `Creation.NewSettingsShown` | tools/atlasctl/cmd/new.go:96-108 | Likewise group and application in capitals, the repository with its path, the gateway port and the chart repository. |
| `Creation.NewChartShown` | tools/atlasctl/cmd/new.go:96-108 | Likewise the chart's revisions, from the configuration, and the two blocks of Helm values. |
| `Workloads.DisableUndoesEnable` | tools/atlasctl/cmd/disable.go:78-108 | Disabling a workload right after enabling it gives back the whole tree, gateway manifest included, byte for byte, if and only if the tree was restorable: a condition on the tree before, down to the form of the manifest's text. |
| `Lifecycle.EnableThenDisable` | tools/atlasctl/cmd/enable.go:45-128 | The two commands in a row on a reliable file system: enabling succeeds exactly under its guards and checks, disabling then exactly if there is a gateway manifest and nothing is inside the route's path, and the tree is back exactly if it was restorable. |
| `Lifecycle.EnableTwice` | tools/atlasctl/cmd/enable.go:45-54 | Enabling an enabled workload once more on a reliable file system is refused without force, and with it succeeds and changes nothing, the gateway manifest included. |
| `Lifecycle.Execute` | tools/atlasctl/cmd/delete.go:34-41 | After any sequence of new, enable (forced or not), disable and delete, each failing anywhere, every promoted manifest still has its workload directory. On a reliable file system each command succeeds exactly if it may and has its effect on the tree that the one before left, and the gateway manifest has gone through the changes of the commands in their order: at most one for each, of the kind and name that the command asks for; a disable that succeeded made one, an enable that succeeded made one exactly if the workload has a gateway. |
| `Lifecycle.ExecuteOnList` | tools/atlasctl/pkg/gitops/gitops.go:187-213 | So, on a reliable file system, a manifest that is a fixed part and the blocks of a list of applications is still one after any sequence of commands, with the list that those changes make in that order. |
| `Lifecycle.EnableKeepsIntegrity` | tools/atlasctl/cmd/enable.go:45-107 | Whatever part of enabling was carried out, integrity is kept. |
| `Lifecycle.DeleteKeepsIntegrity` | tools/atlasctl/cmd/delete.go:34-74 | Whatever part of deleting was carried out, integrity is kept. |
| `Lifecycle.OthersUntouched` | tools/atlasctl/pkg/gitops/gitops.go:32-44 | However enabling or disabling ends, nothing in the tree that belongs to a workload of another application name changes; its listener in the shared manifest is the subject of `ListenersAfter`. |
| `Lifecycle.SharedRouteLost` | tools/atlasctl/pkg/gitops/gitops.go:42 | Two groups with an application of the same name share route and listener: disabling one leaves the other promoted with all its resources, but without its route and with one listener less. |
| `Lifecycle.YamlNameBreaksIntegrity` | tools/atlasctl/pkg/gitops/gitops.go:38-39 | Promoting an application called `x.yaml` from a sound tree keeps integrity if and only if `x` happens to be a workload of that group, too. |

## Left out

- Metrics, logs, tracing spans and the `traceparent` fields: no effect on the protocol's state. Job messages are seen
  through their decoder, as undecodable text, a bad id, or an id and a text; ids are canonical uuid strings, fresh for
  every inserted row.
- The bytes of PDFs and signatures: `Generated` and `Signed` are constructors, and generating and signing may fail.
- Timeouts, sleeps and the Redis client's own retries: a timeout is a step without effect.
- More than one result consumer: pops and updates of two could interleave, and completed rows would not be final.
- Bounded waiting under an unfair scheduler: shown are the absence of deadlock, the bound on effective steps and the
  existence of a fault-free way to rest.
- HTTP decoding, routing, middleware and the user interface; only the status checks and answers of the handlers.
- Escaping in the listener template: none happens, as it is a text template; the block is written out line by line.
- `Rendering.Render`: parsing arbitrary text into literals and holes; the order theorems speak of texts that are made
  of them, with literals that neither contain `{{` nor end with `{`.
- `SeedFile.LoadParams`: upper-casing outside ASCII; other characters are left alone.
- `VaultSeed.Group`: the base64 alphabet (section 4 of RFC 4648); decoding is an arbitrary partial function.
- Provisioning of databases and buckets, the read of the cluster's Redis password, kubectl, vault, git and argocd
  calls: foreign programs. A write to Vault is an update of a map that may fail with or without effect.
- Confirmation prompts, dry runs, seeding and committing after enable or disable: they do not touch the modelled tree.
- `Lifecycle.Execute`: names with several path components or ending in `.yaml`, and base directories inside one
  another; for `.yaml` a lemma shows what goes wrong.
- `Creation.New`: walking the embedded file system; the templates, without their suffix, are a parameter. Generating
  random secrets: their values, or that one could not be generated, are a parameter.
- `GatewayRuns.RunRefines`: removing by name a listener that stands in the fixed part of the manifest; what is then
  cut is described for arbitrary text by `GatewayFrame.RemovedRange`.
- `Workloads.DisableUndoesEnable`: application names with a line break in them.
- `Sync.SyncResources`: a destination inside the source or the other way round; the configured directories are apart.
- Permissions, symbolic links and concurrent runs of the tool; a command is one sequential process.
- Configuration loading and merging, indentation of Helm values, listing, status, backup and smoke commands.