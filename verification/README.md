# Terrashine, verified

Terrashine is a caching mirror for Terraform providers. Any number of instances share one Postgres
catalogue and one S3 bucket. An index request lists a provider's versions, a version request lists the
packages of one version, and an artifact request redirects to an object that the first such request
fetched from upstream. This project models that as a replicated read-through cache and proves what it
promises over every interleaving of every instance, with any call failing at any time.

`dafny verify dfyconfig.toml` checks everything.

## How the model is built

Each of the three long-running pieces is written twice, and the two are tied together.

* As a **program**: a control point and, for each external call it awaits, where every answer leads
  (`ArtifactProgram`, `RefreshProgram`, `IndexProgram`). A handler's history is the sequence of its calls
  with their answers.
* As **imperative code** in the shape of the Rust source (`ArtifactHandler`, `RefreshHandler`, the second
  half of `IndexProgram`): loops, buffers and early returns over services that answer anything they like.
  Each method is proved to produce only histories of the program, ending where it says it ends.

The programs are then interleaved into state machines.

| file | what it holds |
|---|---|
| `Basics`, `Decimal` | byte strings, optional values, printing and reading 64-bit ids |
| `Catalogue` | the two tables with their constraints, and the statements run against them |
| `ArtifactProgram`, `ArtifactHandler` | one artifact request: read, fetch and allocate, upload in parts, complete, record, presign |
| `ArtifactCache`, `ArtifactTheorems` | any number of artifact handlers over one bucket and one catalogue: invariant, coherence, fate of ids, uploads |
| `Index` | flattening and storing upstream responses, listing them back, index documents |
| `VersionDocument` | version documents and the way from an address back to a row |
| `RegistryClient` | the bounded body reader and the registry requests around it |
| `RefreshProgram`, `RefreshHandler` | the refresher actor |
| `IndexProgram` | the index handler |
| `Instance`, `InstanceTheorems` | one instance: queue, refresher, clock, index handlers, answer channels |
| `Outcomes` | what the refresher decides about each message of its queue |
| `Mirror`, `MirrorTheorems` | all instances and all artifact handlers together, runs, and the end-to-end results |
| `QueueTheorems` | what is decided about queued requests, over runs of the whole mirror |
| `ReadBack` | when a request is served from the catalogue and when from a refresh, and when the two agree |
| `Recovery` | which handlers can still succeed after failures |
| `Scenarios` | runs that do happen, among them the refusal that the index round trip makes possible |

A call that failed, or whose caller was dropped, may still take effect later: such calls stay pending and
may land at any moment or never. Stores of upstream responses whose acknowledgement was lost do the same.

## What is assumed

* A sequence never hands out a value twice; values may be skipped.
* A completed upload is the concatenation of its listed parts; a list that is empty, or that names a part
  or tag the store does not hold, is rejected. An upload id is never issued twice.
* A failed or abandoned call takes effect at most once afterwards.
* Nothing but the handlers writes under the bucket prefix, and all instances use the same prefix.
* Storing one response is one atomic step that may fail: the upsert of the provider row holds that row's
  lock until the transaction ends.
* What the database answers is what the tables hold at that moment; otherwise it fails.
* The clock of an instance does not go back.
* JSON decoding, URL joining, credentials and HTTP status are parameters of `RegistryClient.ProviderGet`.

## Where the code and its comments differ

The model follows the code.

* `src/refresh.rs:38-42` says that of several concurrent requests only the first receives
  `RefreshPerformed`. When the first one fails on an unknown provider nothing is recorded, and the next,
  queued beside it, performs a refresh too (`Scenarios.BothRefreshIsReachable`). The exact condition is
  `QueueTheorems.OneRefreshForAQueue`.
* `src/http/index.rs:63-67` says the refresher is waited for only when a brand new provider is first
  encountered. It is waited for exactly if the read failed or no committed response ever had a platform
  (`ReadBack.WaitsIff`), so the comment holds of a read exactly if no response was committed for the
  provider yet, or the read did not fail and some committed response had a platform
  (`ReadBack.OnlyNewOnesWaitIff`). `ReadBack.ReadBackCanDiffer` runs into a failed read of a known
  provider; `Scenarios.RefusalIsReachable` into a provider without platforms, whose request is refused as
  a concurrent fetch with nothing concurrent.
* The index read back from the catalogue is not always the index served from a refresh. For a request
  served so, the two agree at a later time exactly if the response had a version, it has every version
  name that any committed response for the provider offered with a platform, and each of its names was
  offered so (`ReadBack.ReadBackIffOffered`; right after a store, `Index.ReadBackIff`). For a provider not
  known before that comes down to each version name having a platform in some item (`Index.FirstListing`);
  the condition is on names and not on items, since a name may occur in several items. A known provider is
  served from a refresh when its read fails, and then the shorter condition neither suffices
  (`ReadBack.ReadBackCanDiffer`) nor is needed (`ReadBack.ReadBackCanAgree`).

## Model

| member | source | states |
|---|---|---|
| Decimal.PrintParse | src/http/version.rs:73-78 | an id printed into an address reads back as itself, for every 64-bit value |
| Decimal.DecimalForm | src/http/version.rs:73-78 | the printed form of an id is the ordinary decimal one: one digit for each of the ten digits, a further digit worth a tenth of the one before it, a minus sign in front |
| Catalogue.UpsertSpec | src/http/index.rs:191-203 | after the upsert exactly one row holds the provider and its refresh time is now, known before or not; every other provider row is equal to what it was, and no tuple changes |
| Catalogue.StoreRows | src/http/index.rs:191-245 | a commit sets the provider's refresh time to now and leaves every other provider row equal; it keeps every constraint and every old version row with its artifact; new rows are this provider's, under fresh ids, without artifact |
| Catalogue.StoreIsUnion | src/http/index.rs:213-252 | a commit makes the provider's tuples the union of the old ones and the response's, leaves other providers alone, and counts the distinct new tuples even when the response repeats some |
| Catalogue.StoreAgain | src/http/index.rs:230-252 | storing a response again, at any later time, inserts no row and reports zero |
| Catalogue.RecordRows | src/http/artifacts.rs:350-365 | recording an artifact changes the artifact columns of its one row, together, and nothing else |
| Catalogue.ExtendsKeeps | src/http/index.rs:281-285 | whatever a listing showed, every later listing still shows |
| ArtifactProgram.S3KeyInjective | src/http/artifacts.rs:167-174 | two ids never share an object key |
| ArtifactProgram.CuttingIsExact | src/http/artifacts.rs:251-326 | at every point the parts and the buffer are exactly the bytes received, in order; when the stream has ended the parts are the whole stream, numbered from one without gap, none empty, all but the last at least 10,485,760 bytes |
| ArtifactProgram.PartCount | src/http/artifacts.rs:251-326 | no more parts than the stream's length over 10,485,760, rounded up; none if and only if the stream is empty |
| ArtifactProgram.BufferStaysWithinAllocation | src/http/artifacts.rs:251-285 | with chunks of at most 2,097,153 bytes the buffer never outgrows its 12,582,912 preallocated bytes |
| ArtifactProgram.AbortIffBroken | src/http/artifacts.rs:287-301 | an abort is requested exactly after the upstream stream broke off, and is the last call of a failed handler |
| ArtifactProgram.StatusTells | src/http/artifacts.rs:68-105 | "not found" exactly if the row was not there, "bad gateway" exactly if upstream could not be opened, a server error for every other failure |
| ArtifactProgram.EndsIff | src/http/artifacts.rs:68-140 | a handler fails if and only if its last call failed, found no row, or was the abort, and redirects if and only if its last call signed a key |
| ArtifactProgram.OneUpstreamCall | src/http/artifacts.rs:94-105 | a handler goes upstream once at most, counting a call still under way |
| ArtifactProgram.HistoryKnown | src/http/artifacts.rs:56-140 | what each control point may rely on: whose id, which upload, whether the stream was opened for the row that was read and has ended; a presigned artifact is the one on record, found without contacting upstream, or was fetched to the end |
| ArtifactHandler.ToS3Key | src/http/artifacts.rs:168-173 | the key starts with the prefix, goes on with `artifacts/`, and its rest reads back as the artifact id |
| ArtifactHandler.SendPart | src/http/artifacts.rs:264-279 | one part is sent under the next number; an acknowledged one is listed with its tag and number, any other answer fails the request |
| ArtifactHandler.GiveUp | src/http/artifacts.rs:287-301 | a broken stream is followed by an abort, and fails whatever the abort answers |
| ArtifactHandler.CutStream | src/http/artifacts.rs:251-306 | the streaming loop makes exactly the calls of the program, and when the stream ends the parts sent and the rest in the buffer are exactly the bytes received; or it fails |
| ArtifactHandler.FinishUpload | src/http/artifacts.rs:307-348 | the rest is uploaded, the upload completed and the row updated, in this order, each only after the one before succeeded |
| ArtifactHandler.StashArtifact | src/http/artifacts.rs:237-348 | a stash is a history of the program that ends ready to presign or failed; on success the parts the store acknowledged are, joined in order, exactly what upstream delivered |
| ArtifactHandler.FetchAndAllocate | src/http/artifacts.rs:94-105 | both halves of the joined fetch succeed in either order, or the first failure decides the status |
| ArtifactHandler.PresignRequest | src/http/artifacts.rs:367-381 | a presigned answer names the object of that very artifact |
| ArtifactHandler.ArtifactsHandler | src/http/artifacts.rs:56-140 | every request is a history of the program; read off its calls: a failure if and only if the last call failed, "not found" and "bad gateway" each for exactly one such call, and otherwise the key that was signed, which is the prefix, `artifacts/` and the decimal id on record or else the one just allocated |
| ArtifactCache.StepInv | src/http/artifacts.rs:80-138 | every step of any handler, failure, dropped handler and late effect keeps the cache invariant |
| ArtifactCache.CompletionIsExact | src/http/artifacts.rs:327-343 | a completion creates one new object, never overwrites one, and its bytes are the whole stream its handler received |
| ArtifactCache.KeyIsFree | src/http/artifacts.rs:225-235 | nothing is stored under the key of a handler that has not completed |
| ArtifactCache.UpdateNeverRefused | migrations/20230320234859_initial-schema.sql:24-24 | the unique constraint on artifact ids can never refuse a row update |
| ArtifactTheorems.CatalogueIsCoherent | src/http/artifacts.rs:337-345 | an artifact id in the catalogue names a complete object: the whole of one upstream stream opened for exactly that row's provider and tuple |
| ArtifactTheorems.RedirectIsCoherent | src/http/artifacts.rs:132-138 | every redirect names such an object for the row that was asked for, and is given only after the artifact was recorded, so that the row has an artifact from then on |
| ArtifactTheorems.OnlyUpdatesTouchRows | src/http/artifacts.rs:345-365 | the catalogue changes only by a row update of a handler for its own row, after its object exists; no failure before it changes anything |
| ArtifactTheorems.UploadsCloseByTheirOwner | src/http/artifacts.rs:287-343 | an upload is closed only by its own handler, by the abort after a broken stream or by a completion that lists parts and makes the object |
| ArtifactTheorems.ExactlyOnePhase | src/http/artifacts.rs:225-235 | an allocated id is always in exactly one of: in flight, abandoned, completed but unrecorded, current, superseded |
| ArtifactTheorems.PhaseMovesForward | src/http/artifacts.rs:350-365 | an id only moves forward through these: nothing abandoned is completed, nothing superseded comes back |
| ArtifactTheorems.QuietStaysQuiet | src/http/artifacts.rs:68-105 | once a row has an artifact, a handler that had not contacted upstream for it never does |
| Index.FlattenIsExact | src/http/index.rs:179-188 | flattening keeps every pair of version and platform and adds none |
| Index.FlattenResponse | src/http/index.rs:179-188 | the nested loop fills three arrays of equal length that zip to the flattened response |
| Index.NamesOfFlatten | src/http/index.rs:182-188 | the version names that survive flattening are exactly those with a platform |
| Index.ResponseRefusedIff | migrations/20230320234859_initial-schema.sql:3-18 | one overlong text of the provider or of any version that comes with a platform refuses the whole response, and nothing else does; the name of a version without platform may have any length |
| Index.FromProviderVersions | src/http/index.rs:255-263 | the index of a response has exactly its version names, each with an empty object |
| Index.FromVersionList | src/http/index.rs:265-275 | the index of a list has exactly the listed names, each with an empty object |
| Index.Database.Transact | src/http/index.rs:190-252 | the transaction succeeds if and only if no statement fails, ids are left and every text fits; the tables change, to those of the whole store, if and only if the commit was carried out |
| Index.Database.StoreProviderVersions | src/http/index.rs:171-253 | for any response and any fault at any statement: success if and only if nothing fails and no text is too long, and then the whole store took effect and the inserted rows are counted; a lost acknowledgement is the only error that leaves the tables stored |
| Index.Database.SelectVersions | src/http/index.rs:143-157 | one row for each row of the provider, none without a version |
| Index.Database.ListProviderVersions | src/http/index.rs:137-169 | unless the query fails, the index of exactly the provider's version names, and nothing at all if it has no row |
| Index.StoredNames | src/http/index.rs:171-253 | after a store the provider lists what it listed before and the response's versions with a platform |
| Index.ReadBackIff | src/http/index.rs:137-169 | whatever was known of the provider: after a store the listed index equals the served one if and only if the response has a version, the catalogue knew no name that the response lacks, and each name of the response has a platform or was known |
| Index.FirstListing | src/http/index.rs:182-188 | the case of a provider not known before: if and only if the response has a version and each version name has a platform; never more is listed than was served, and nothing if and only if no version has a platform |
| VersionDocument.TryFrom | src/http/version.rs:55-63 | a segment is accepted if and only if it is some version followed by `.json`, and is kept whole either way |
| VersionDocument.VersionRoundTrip | src/http/version.rs:48-63 | every version name has exactly one segment, whose prefix is the name |
| VersionDocument.ArchiveName | src/http/version.rs:65-71 | operating system, separator, architecture |
| VersionDocument.BuildUrl | src/http/version.rs:73-78 | the address starts with the base address, goes on with `artifacts/`, and its rest reads back as the row id |
| VersionDocument.UrlRoundTrip | src/http/artifacts.rs:65-65 | the last segment of a built address reads back as the row id, for every 64-bit id and base address |
| VersionDocument.NameReadsBackIff | src/http/version.rs:65-71 | an archive name reads back as its platform if and only if the operating system has no separator |
| VersionDocument.NamesCanCollide | src/http/version.rs:65-71 | two platforms that share a name, when an operating system has one |
| VersionDocument.Build | src/http/version.rs:86-96 | each name that occurs leads to the last row that has it, and no other name occurs |
| VersionDocument.ListDownloads | src/http/version.rs:117-152 | exactly the rows of that version of that provider, each once, if and only if no fetch of the row stream fails before its end |
| VersionDocument.VersionHandler | src/http/version.rs:15-36 | a segment without the suffix is refused as no version; for any other, the document of the rows of the version it names, unless a fetch of the row stream fails |
| VersionDocument.DocumentIsFaithful | src/http/version.rs:86-96 | if no operating system has a separator, every row has its entry, whose address is the base address, `artifacts/` and that row id in decimal, and there are no more entries than rows |
| VersionDocument.OneEntryEachIff | src/http/version.rs:86-96 | as many entries as rows if and only if no two rows share a name, fewer otherwise, none exactly without rows |
| VersionDocument.EntryLeadsToRow | src/http/version.rs:86-96 | in every case an entry's address is the base address, `artifacts/` and the decimal id of a row of that provider and version whose name is the entry's |
| RegistryClient.ReadBodyLimit | src/registry/client.rs:39-51 | the loop over chunks computes the specified outcome and buffer |
| RegistryClient.ReadIsBounded | src/registry/client.rs:39-51 | the buffer is always a prefix of what was delivered and never exceeds the limit |
| RegistryClient.ReadIffFits | src/registry/client.rs:44-48 | a body without transport error is read in full if and only if it fits, and is refused as too large otherwise |
| RegistryClient.TooLargeIff | src/registry/client.rs:39-51 | with transport errors anywhere: a read is refused as too large if and only if more than the limit arrives before the first error, and fails otherwise if and only if there is an error |
| RegistryClient.ChunkingIsIrrelevant | src/registry/client.rs:44-49 | how a body is split into chunks changes neither the answer nor the bytes |
| RegistryClient.OkMeansClean | src/registry/client.rs:44-44 | a transport error is never read past |
| RegistryClient.Fetch | src/registry/client.rs:64-71 | a request yields the whole body if and only if it arrives within its limit; it is refused as too large exactly if it overflows before it breaks, and fails for the transport otherwise |
| RegistryClient.DiscoverServices | src/registry/client.rs:53-74 | discovery succeeds if and only if the document fits 16,384 bytes and decodes; one that fits and does not decode is refused as such |
| RegistryClient.ProviderGet | src/registry/client.rs:76-112 | a registry request succeeds if and only if discovery fits 16,384 bytes, the metadata 8,388,608 bytes, and every other condition holds; the answer is decoded from the whole second body, and a failure names the first condition that does not hold |
| RefreshProgram.ReportsWhatHappened | src/http/index.rs:121-135 | over every history from the start, the result written down and the one answered are what happened to this very message: upstream's failure as it came, the response if its store took effect, a failed store otherwise |
| RefreshProgram.ChannelsDoNotMatter | src/refresh.rs:90-95 | the memory of refreshes evolves the same whether or not requests carry a response channel |
| RefreshHandler.RefreshVersions | src/http/index.rs:121-135 | fetch, then store; the result is upstream's failure as it came, or success only once the store of just that response for just that provider committed |
| RefreshHandler.Serve | src/refresh.rs:69-127 | read off the calls: upstream is asked if and only if the provider is not remembered or its time is more than an interval before the clock; a time, read after the refresh, is recorded if and only if the provider was remembered or its response was stored, and no other provider's changes; whoever waits is told last of all what upstream and the store answered, or that nothing was stale |
| RefreshHandler.RunRefresher | src/refresh.rs:46-139 | the loop is a history of the program, starting with nothing recorded, that ends idle or stopped |
| IndexProgram.OutcomeTells | src/http/index.rs:34-118 | over every history, read off its calls: a request is served an index if and only if that index was listed, or the last answer is a performed refresh with exactly the index's names; it is refused with the refresher's error, as concurrent, as too many or as broken if and only if its last call says so |
| IndexProgram.IndexHandler | src/http/index.rs:26-119 | the answer is the one outcome that its own calls to the database and the refresher call for, and no other |
| Instance.StepInv | src/refresh.rs:53-138 | every step of an instance keeps its invariant: queue and waiters accounted for, slots telling the truth, refresh times spaced, replies earned |
| InstanceTheorems.RateLimit | src/refresh.rs:97-109 | once a refresh is recorded, the entry stays occupied with a time no earlier than its end, and every later refresh, recorded or under way, starts more than an interval after it ended |
| InstanceTheorems.ContactsFollowRefreshes | src/refresh.rs:97-116 | every contact with upstream for a remembered provider, the first and the latest included, starts more than an interval after a recorded refresh of its own, and is recorded itself, success or failure, unless still under way |
| InstanceTheorems.ContactsAreSpaced | src/refresh.rs:97-116 | k - j contacts in a row take more than k - j intervals |
| InstanceTheorems.AnsweredInOrder | src/refresh.rs:55-71 | exactly the waiters of the requests dealt with have been answered, each once and in the order of acceptance; the queue holds at most 10,000 |
| InstanceTheorems.SendsIff | src/lib.rs:194-194 | a request ready to send, or to remind, can put its message at the end of the queue if and only if the instance is open and fewer than 10,000 messages are queued |
| InstanceTheorems.StopReleasesWaiters | src/refresh.rs:133-137 | cancellation is seen only between refreshes, closes the channel for good, and tells everyone still queued |
| InstanceTheorems.NobodyWaitsOnTheDead | src/http/index.rs:100-118 | after the refresher has stopped every waiting handler has something to receive |
| InstanceTheorems.WorkBringsWaitersCloser | src/refresh.rs:54-131 | every move of the refresher brings every waiter strictly closer to its answer |
| InstanceTheorems.OthersDoNotPushBack | src/http/index.rs:77-98 | nobody else's step puts a waiter back |
| InstanceTheorems.WaitersAreReached | src/refresh.rs:54-131 | an accepted waiter is settled or the refresher can move, and is never more than 60,005 moves away |
| InstanceTheorems.StepBringsCloser | src/refresh.rs:54-137 | every step, the stop included, leaves a waiter settled or as much closer as the refresher moved; whoever is settled stays so |
| Outcomes.StepKeepsOutcomes | src/refresh.rs:67-130 | every step keeps the record of decisions true: judged by the clock, each finding what the one before it left, each handed to its waiter |
| Outcomes.ExactlyFirstIff | src/refresh.rs:38-42 | of requests for one provider served in turn exactly the first refreshes if and only if it finds the provider not fresh, leaves it remembered, and the others are looked at within the interval of that |
| Outcomes.NonePerformedIff | src/refresh.rs:117-126 | none of them refreshes if and only if the first finds the provider fresh and the others are looked at within the interval of the same refresh |
| Mirror.StepInv | src/lib.rs:194-208 | every step of any instance or artifact handler keeps the invariant of the whole mirror: the catalogue is exactly what committed responses offered |
| Mirror.RunKeeps | src/lib.rs:194-208 | so does every run, and nothing known is lost along it |
| MirrorTheorems.CacheIsCoherent | src/http/artifacts.rs:80-138 | in every reachable state every artifact id names a complete object with the whole upstream stream of its row |
| MirrorTheorems.ObjectsAreNamed | src/http/artifacts.rs:167-174 | in every reachable state each object lies under the prefix and `artifacts/`, and the rest of its key reads back as the id its handler allocated |
| MirrorTheorems.RedirectsAreNamed | src/http/artifacts.rs:367-381 | so does the key of every redirect, with the id of the artifact it is for |
| MirrorTheorems.RedirectsStayGood | src/http/artifacts.rs:132-138 | a redirect once returned was recorded, and keeps naming that same object for the rest of the run, even after the row is superseded |
| MirrorTheorems.NothingShared | src/http/artifacts.rs:225-250 | no artifact id and no upload belongs to two handlers |
| MirrorTheorems.IdsMoveForward | src/http/artifacts.rs:350-365 | over every run ids only move forward through their phases |
| MirrorTheorems.UploadClosesIff | src/http/artifacts.rs:264-343 | the open upload of a handler that failed or was dropped, whatever the failure, can still be closed if and only if its abort, or its completion listing parts, is unaccounted for; otherwise it stays open for the rest of every run |
| MirrorTheorems.OnlyTheseMayClose | src/http/artifacts.rs:287-343 | an abort is unaccounted for only after the stream broke off, a completion only after it ended |
| MirrorTheorems.FailuresLeaveTheWayOpen | src/http/artifacts.rs:245-345 | a handler past its read can still end in a redirect if and only if it was not dropped or failed itself, its stream did not break off, and it does not complete without parts |
| MirrorTheorems.NewRequestMaySucceed | src/http/artifacts.rs:94-139 | whatever failed before, a new request for a row can reach a redirect to a genuine object by its own calls alone |
| MirrorTheorems.UpstreamMayGoAway | src/http/artifacts.rs:80-105 | once a row has an artifact, only handlers that had read the row before go upstream for it, and all calls ever made for it, those under way included, are at most as many as those handlers |
| MirrorTheorems.ListingIsWhatWasOffered | src/http/index.rs:137-169 | a provider lists exactly the versions that had a platform in some committed response, and nothing if and only if there are none |
| MirrorTheorems.OnlyWhatFitsCommits | migrations/20230320234859_initial-schema.sql:3-18 | over every run no store with an overlong text takes effect, for any provider on any instance |
| MirrorTheorems.OverlongIsNeverServed | src/http/index.rs:100-135 | so a request is never answered with success for a response with an overlong text |
| MirrorTheorems.CatalogueIsStable | src/http/index.rs:281-285 | over every run rows stay under their ids about the same thing, recorded artifacts stay recorded, and constraints hold |
| MirrorTheorems.DurableReply | src/http/index.rs:100-135 | an index served from a refresh is already committed: every later listing by any instance has its versions with a platform |
| MirrorTheorems.ServedIndexesStayGood | src/http/index.rs:34-51 | an index once served from the catalogue never goes stale: on any instance, at any later time, each of its versions is still listed and has a version document with a package |
| MirrorTheorems.ConcurrentFetchExplained | src/http/index.rs:34-110 | a refusal for a concurrent fetch whose read did not fail means this instance's first recorded success committed after the read, or had no platform at all |
| MirrorTheorems.RefreshesAreSpaced | src/refresh.rs:74-116 | over every run, once one refresh is recorded: the entry stays occupied, its time never goes back, and every later refresh, recorded or under way, starts more than an interval after that one ended |
| MirrorTheorems.RefreshesSpanIntervals | src/refresh.rs:97-116 | n recorded refreshes span more than n - 1 intervals |
| MirrorTheorems.UpstreamIsRateLimited | src/refresh.rs:97-116 | over every run each contact with upstream for a remembered provider, failed or not, starts more than an interval after a recorded refresh of its own, and contacts are never forgotten |
| MirrorTheorems.ContactsSpanIntervals | src/refresh.rs:97-116 | k - j contacts in a row take more than k - j intervals |
| MirrorTheorems.NoWaiterIsLost | src/http/index.rs:68-118 | every request dealt with is answered exactly once and in order; while a request waits unanswered the refresher can move; and after 60,005 moves of that refresher, its stop included, the request has its answer or its closed channel, over every run |
| MirrorTheorems.BrokenOnlyAfterStop | src/http/index.rs:92-117 | a request is told the channel is broken only after that instance's refresher has stopped |
| MirrorTheorems.DocumentsLeadToGenuineObjects | src/http/version.rs:86-96 | an entry of a version document is the base address, `artifacts/` and a decimal id; at any later time that id is a row of that version and platform name, and any redirect for it names a genuine object |
| QueueTheorems.DecidedByTheClock | src/refresh.rs:73-126 | in every reachable state each request dealt with was answered "not stale" if and only if its provider was remembered and was looked at within the interval, and upstream was not asked; otherwise the answer is upstream's failure as it came, the response if its store took effect, or a failed store; and its waiter was handed exactly that answer |
| QueueTheorems.OneRefreshForAQueue | src/refresh.rs:38-42 | over every run, of the requests for a provider that were queued together exactly the first is answered with a refresh if and only if it does not find the provider fresh, leaves it remembered, and the others are looked at within the interval; none is if and only if the first finds it fresh and the others are within the same interval |
| QueueTheorems.BurstsCostNothing | src/refresh.rs:117-126 | over every run, while the clock is within the interval of a recorded refresh, upstream is not contacted again and everything decided since is "not stale" |
| ReadBack.WaitsIff | src/http/index.rs:34-67 | in every reachable state a request turns to the refresher after its read if and only if the read failed or no committed response for the provider ever had a platform |
| ReadBack.OnlyNewOnesWaitIff | src/http/index.rs:63-67 | that only providers no response was ever committed for are waited for holds of a read if and only if the provider is one, or the read did not fail and some committed response had a platform |
| ReadBack.ServedAsListed | src/http/index.rs:34-51 | a request whose read found an index is never refused and is served, at any later time of any run, exactly the version names the catalogue had at that read |
| ReadBack.ReadBackIffOffered | src/http/index.rs:100-169 | for a request served straight from a refresh: at any later time the catalogue lists that very index if and only if the response had a version, every name any committed response offered with a platform is among its names, and each of its names was so offered |
| ReadBack.ReadBackCanDiffer | src/http/index.rs:55-101 | from an empty mirror: a known provider whose read failed is served a response all of whose versions have a platform, and the catalogue lists something else |
| ReadBack.ReadBackCanAgree | src/http/index.rs:55-101 | from an empty mirror: one is served a version without platform, and the catalogue lists just that |
| Recovery.MayRedirectIff | src/http/artifacts.rs:245-345 | the exact condition under which a handler can still succeed, for every state of the mirror's invariant |
| Scenarios.FirstRequestServed | src/http/index.rs:55-101 | on a free instance a first request, whose read finds nothing or fails, is served straight from the refresh it sets off, whatever is known |
| Scenarios.TwoInstancesServe | src/http/index.rs:55-101 | for any two responses that fit: one instance serves the first, then another, whose read fails, serves the second |
| Scenarios.FirstAttemptsAreUnlimited | src/refresh.rs:74-96 | before the first success any number of attempts can fail upstream within one clock reading and leave nothing recorded |
| Scenarios.BothRefresh | src/refresh.rs:38-42 | two requests for an unknown provider, both queued before either is taken up, are both answered with a refresh performed |
| Scenarios.BothRefreshIsReachable | src/refresh.rs:38-42 | that run starts from an empty mirror, for every provider and interval |
| Scenarios.RefusedWithinInterval | src/http/index.rs:106-110 | a provider refreshed within the interval that lists nothing is refused with nothing failing and nothing concurrent |
| Scenarios.PlatformlessIsRefusedNext | src/http/index.rs:106-110 | a provider whose first response has no platform: that request is served and the next is refused, although the first success committed before its read |
| Scenarios.RefusalIsReachable | src/http/index.rs:106-110 | that refusal is reached from an empty mirror, for every provider that fits and every interval |

## Left out

- ArtifactHandler.CutStream: streams are finite and part numbers unbounded; a stream that never ends and the 32-bit part number are not modelled.
- ArtifactHandler.StashArtifact: split into the streaming loop and what follows it, as the request handler is into obtaining and presigning; the buffer is a value rather than an allocated vector, and its capacity is only compared with its length.
- RefreshHandler.RunRefresher: covers any finite number of selections; the endless loop itself is not modelled, and neither is a closed queue with no sender left.
- IndexProgram.IndexHandler: the one-second send timeout may or may not strike; only that a full queue accepts nothing is modelled.
- MirrorTheorems.NoWaiterIsLost: that the refresher is scheduled at all, and that upstream and database calls return, is not assumed, so the bound is on the refresher's own moves and not on time.
- ArtifactCache.StepInv: a creation of an upload whose acknowledgement was lost leaves an upload that nobody knows; it is not represented.
- Catalogue.StoreIsUnion: two stores of one provider at the same time are two atomic steps in some order; isolation levels below that are not modelled.
- HTTP serving, routing beyond the last segment, headers, presign expiry and cache lifetimes: plumbing over libraries.
- The mapping of registry errors to HTTP statuses, tracing, metrics, TLS, command line and process signals.
- The accept loop and shutdown order of `src/lib.rs`, the health check and the migrations runner.
- The credential store and its API: simple maps that would only add easy members.
- Not claimed because the code does not do it: cleaning up every multipart upload, writing an artifact id only once, listing a provider without platforms.
