# Argon media pipeline: a verified model

The service stores uploaded photos, validates them, and runs the accepted ones through three queue-driven
stages -- convert, compress, variants -- that normalise the original, recompress it and produce a thumbnail, a
web and a full size. There are no locks and no transactions across tables, store and queues; the code relies on
deterministic object keys, upserts and the order of its writes. This project models that protocol as a step
system and proves what holds in every state any interleaving can reach, and proves the algorithmic cores
beside it.

## How the model is built

**The pipeline.** `Tables` holds the image table, the variant table (a plain list of rows, so that uniqueness is
a theorem) and the object store, with one function per repository or storage write. `Machine` makes every
`await` of a worker job, of one of the three concurrent resize tasks, and of an upload, seed, reprocess or remove
call one atomic step. At each step the environment chooses: the await succeeds, rejects without effect, or
rejects although the write took effect (the reply was lost). A throwing job is retried until three attempts are
used, then the failure handler gets its one write. When one resize task rejects, its unsettled siblings live on as
stragglers, beside the retry or after the image was marked FAILED. Uploads, seeds, reprocesses and deletes may
begin at any time, any number of times. `Exec` runs a list of such actions from the empty system; the theorems
quantify over all lists.

`JobInvariant` says what holds at each await and that no step of another process disturbs it;
`PipelineInvariant` lifts this to an inductive invariant of all runs; `Budget` gives the measure every step
lowers; `Guarantees`, `Buckets`, `Tracking`, `Originals`, `Seeded`, `Admission`, `Gate` and `Verdicts` draw the
conclusions; `Witnesses` and `Twins` show runs that reach COMPLETED and runs that need the theorems' conditions.

**What a run did.** Five modules tell the state from the history of the run, without the functions the steps are
made of: `Attempts` counts the awaits that threw and follows an attempt from await to await; `Entries` says which
awaits add jobs, how calls go on and what the ledger counts; `Columns` shows that every column of a live row is what
the last await to write it wrote; `Slots` does so for the variant table and says what a rejected resize leaves
behind; `Removal` says, on the object store, what a remove call did before its row went.

**The code's own form.** `BackendState.Backend` is the mutable state behind the repository, the storage adapter
and the queues; `Workers` and `Services` are the job bodies and service calls as sequences of awaited calls on
it. Before each await everything shared -- tables, store and deterministic job ids -- is replaced by an arbitrary
state; the backend's ghost `trace` keeps what the body left behind each time. `Runs` says what it means to follow a
run: `Done` in a contract promises that the shared state left behind after every await is the one the step system
has at that point, that the outcome is the step system's, and that exactly its jobs were added. There is one small
method per await and one method per job body or call that strings them together. `Workers.DoneMeansRun` and
`Services.DoneMeansRun` spell the promise out: the surroundings determine one run, it ends, and the body went
through exactly its shared states.

**Verdicts.** In the step system the verdict of the validator chain is a choice of the environment. `Verdicts` puts
the chain in: a check the default chain decides, its hash query answered with exactly the user's other ACCEPTED rows
of that moment, leads on as the chain says of the stored bytes. The conclusions about rows name the step of the run
at which the check found what the row says.

**The cores.** `Keys` (object key layout), `Rounding` (the compression figures), `PHash` and `Hex` (perceptual
hash, packing, Hamming distance), `Blur` (Laplacian variance), `Chain` and `Validation` (the validator chain),
`Paging` (the list endpoint), `LoadTest` (worker pool, polling, percentiles). `Sorting` and `Arithmetic` are shared
by them.

Library calls (image codecs, HEIC decoding, face detection, file sniffing) are deterministic functions passed in
as parameters. A queue `add` is atomic; a custom job id still present swallows a second add; generated ids are
fresh. Uuids are 36 characters without '/' or '.'.

## Where code and documentation differ

- `docs/architecture.md:126-144` draws the status as a forward-only machine with reprocess allowed from COMPLETED.
  `reprocess` has no status guard (`src/domain/services/image.service.ts:151-158`), so runs overlap and statuses go
  backwards, and an upload still waiting for its validation can be processed to COMPLETED without ever having been
  admitted (`Witnesses.ReprocessBypassesValidation`; `Gate.GateHoldsExactlyUnlessBypassed` shows that, seeding
  aside, this is the only way round). The model follows the code.
- The repository README (`README.md:345`) calls DELETE a hard delete of row and objects. `remove` deletes only the
  original and display objects; `Guarantees.RemoveIsLocal` includes that no derived object is ever removed.
- `docs/architecture.md:271-273` says a job never disappears silently. When the failure handler's own write rejects
  (`Witnesses.LostFailureStrands`), when an entry call's enqueue rejects after its row write
  (`Guarantees.LostSeedStrands`, `Guarantees.LostReprocessStrands`), or when a validation is repeated whose hand-off
  had taken effect (`Witnesses.RepeatedHandOffStrands`), the image stays where it is with nothing in progress.
  `Tracking.StuckExactlyIfStranded` gives the exact condition over whole runs.
- The variants worker falls back to the normalized image as its source
  (`src/workers/processing/variants.worker.ts:51-55`); `Guarantees.StagePreconditionsHold` shows the fallback and
  both "stage reached without" errors are dead code.
- The blur check returns "sharp" for an image with a side under three pixels, because its variance is NaN
  (`Blur.NoInteriorNoVerdict`).
- The figure served as `savedPct` and the one the worker logs differ by 0.1 exactly when the stored ratio's fourth
  decimal is a 5 and storing it moved the ratio towards the figure that rounds up (`Rounding.ServedAndLoggedPart`;
  `Rounding.ServedAndLoggedCanDiffer` is an instance).
- The similarity check is meant to reject near-duplicates of accepted images
  (`src/workers/validators/similarity.validator.ts:2`), but its query selects only rows whose status is ACCEPTED at
  that moment (`src/infra/repositories/image.repository.ts:112-118`). An image that went on to the processing stages
  is no longer compared with: the same photo is accepted again once its first copy is COMPLETED
  (`Twins.SecondCopyIsAccepted`).

## Model

| member | source | states |
|---|---|---|
| Guarantees.Confluence | src/workers/processing/conversion.worker.ts:44-51 | in every reachable state any stored object holds the bytes one sequential run would put at its key, whatever overlapped |
| Guarantees.VariantRowsAreTrue | src/workers/processing/variants.worker.ts:68-87 | every variant row has its live image, is alone in its (image, type) slot, and gives key, width, height and size of the stored object |
| Guarantees.CompletedMeansComplete | src/workers/processing/variants.worker.ts:67-89 | a COMPLETED image has exactly the three rows of a sequential run, each object stored, and no pipeline error |
| Guarantees.CompressionIsTrue | src/workers/processing/compression.worker.ts:49-60 | a live row's compressed key, byte count and ratio are those of a sequential run and match the stored object |
| Guarantees.OutputKeysResolve | prisma/schema.prisma:61-71 | output keys of a live row lie under its own prefix and name existing objects; a compressed key implies a normalized one |
| Guarantees.RemoveIsLocal | src/domain/services/image.service.ts:182-194 | no step of a remove call changes another image's objects, row or variants, or any derived object; when the row is gone so are its variants |
| Originals.OriginalPresentUnlessRemoved | src/domain/services/image.service.ts:182-194 | a live row's original is stored if and only if no remove call has deleted it |
| Removal.SweepsBeforeDeleting | src/domain/services/image.service.ts:182-194 | a remove call about to delete its row has, since it found it, spent one await on the row's original and, if it had a display object, another on that; each left no object under the key, or rejected |
| Removal.RowsGoAfterTheirObjects | src/domain/services/image.service.ts:182-194 | rows go no other way: wherever a live row is gone after a step, that was such a call's |
| Removal.DisplayPresentUnlessRemoved | src/domain/services/image.service.ts:182-194 | a live row's display object is stored if and only if no remove call has taken it away since it was last stored |
| Removal.DisplayObjectAlongRun | src/workers/image.worker.ts:81-90 | the inductive form: only a validation of the image stores its display object, only a remove call of it takes it away |
| Originals.OriginalAlongRun | src/domain/services/image.service.ts:151-194 | the inductive form: what every step of every process does to one image's original |
| Witnesses.RemoveMayStrand | src/domain/services/image.service.ts:186-193 | a remove call whose row deletion rejects leaves a live row without its original |
| Buckets.BucketRefines | src/workers/processing/keys.ts:15-27 | reads, puts and deletes under rendered key strings agree with those under structured keys |
| Buckets.ReachedStoreFits | src/workers/processing/keys.ts:1-11 | every key in a reachable store belongs to its upload, so the bucket of rendered keys is well defined |
| Buckets.BucketFollows | src/workers/processing/keys.ts:1-27 | the run over rendered keys simulates the structured run: every step puts or deletes the one named object its await is about, or leaves the bucket alone |
| Buckets.BucketServes | src/workers/processing/keys.ts:1-27 | and what a job reads from the bucket under the rendered key is what the step system reads |
| Guarantees.StagePreconditionsHold | src/workers/processing/compression.worker.ts:37-39 | no queued or running job can hit the missing-input errors, and a variants job always starts from the compressed image |
| Tracking.StuckExactlyByDropping | src/domain/services/image.service.ts:118-158 | a step leaves a live, unfinished image with nobody to move it on if and only if it is one of the named lost writes or a de-duplicated hand-off, the row before it is live and not final (or this very write makes it so), and no other process carries the image |
| Tracking.StuckUntilRescued | src/domain/services/image.service.ts:151-194 | a stuck image stays stuck through every step except a reprocess call's successful status write or a remove call's row deletion |
| Tracking.StuckExactlyIfStranded | src/workers/processing/conversion.worker.ts:50-89 | after any run an image is stuck if and only if some step stranded it and no later step rescued it |
| Tracking.SettledImagesAreFinal | src/infra/queue/pipeline-queues.ts:46-51 | without new entries every execution ends, and where it ends a live image is COMPLETED, FAILED or REJECTED if and only if it was not stranded for good |
| Seeded.SeededNeverValidated | src/domain/services/image.service.ts:118-145 | a seeded image is never PENDING, PROCESSING or REJECTED, reprocessed or not, and no validation job ever exists for it |
| Seeded.SeededSettles | src/domain/services/image.service.ts:118-145 | once everything is over a live seeded image is COMPLETED or FAILED if and only if it was not stranded for good |
| Guarantees.EndingsAreExplained | src/infra/repositories/image.repository.ts:83-103 | REJECTED rows keep at least one reason, FAILED rows have reasons or an error that starts with a stage's tag, and rows in progress or COMPLETED show no old error |
| Columns.ErrorNamesTheStage | src/workers/processing/conversion.worker.ts:71-91 | which stage the error names: it starts with "[convert] ", "[compress] " or "[variants] " exactly as the last failure write of the pipeline was by the handler of a convert, compress or variants job of that image, which had thrown three times, and goes on with that failure's message |
| Columns.ErrorShownUntilCleared | src/infra/repositories/image.repository.ts:126-171 | a live row shows a pipeline error if and only if some handler wrote one and no stage has since begun, completed or been asked for anew |
| Columns.StatusIsLastWrite | src/infra/repositories/image.repository.ts:59-171 | a live row's status is that of the last await to write one, and only the insert, the stage's own mark, the verdict, the completion, a reprocess mark or a failure handler after three throws writes each |
| Columns.ReasonsAreLastWrite | src/infra/repositories/image.repository.ts:66-103 | its reasons are those of the last refusal or the one INTERNAL_ERROR of the last validation given up, whichever came later; an admission clears them |
| Columns.MeasuresAreLastWrite | src/infra/repositories/image.repository.ts:66-81 | its width, height and hash are those the last acceptance came with; without one there are none |
| Columns.DisplayIsAcceptedCopy | src/workers/image.worker.ts:81-97 | a live row has the display key of its upload if and only if some acceptance took effect right after its job had stored the display copy; nothing later clears it and nothing else sets it |
| Columns.RowAfterStep | src/infra/repositories/image.repository.ts:34-171 | one step, one row: it comes with the insert, goes with the delete, and in between each column changes exactly as the await that takes effect writes it |
| Columns.ColumnIsLastWrite | src/infra/repositories/image.repository.ts:34-171 | along a run every column of a live row shows what the last await to write it wrote |
| Slots.SlotsAreUpserted | src/infra/repositories/image.repository.ts:178-192 | a live image has a variant of a size if and only if some upsert of that size took effect, by a task of an attempt or by a straggler |
| Slots.SiblingsCarryOn | src/workers/processing/variants.worker.ts:68-87 | when a resize task throws, exactly its unsettled siblings go on by themselves, each at the await it stands at |
| Witnesses.StragglerOutlivesFailure | src/workers/processing/variants.worker.ts:68-87 | a run in which a straggler fills its slot after the image was marked FAILED |
| Admission.RowsReportVerdicts | src/workers/image.worker.ts:64-98 | whatever holds of every verdict on an image holds of the measures in its row and, while it is REJECTED, of its stored reasons: no retry, failure or reprocess mixes anything else in |
| Verdicts.CheckIsTheChain | src/workers/image.worker.ts:54-90 | decided by the default chain, the check goes on exactly for uploads that pass the first four checks and are not near any other ACCEPTED row of the user at that moment, with their true width, height and hash and, for HEIC, the chain's display copy; any other upload throws or is refused for one reason true at that moment |
| Verdicts.AcceptableOnAnswer | src/infra/repositories/image.repository.ts:111-122 | with the rows the hash query selects as its answer, acceptable to the chain means acceptable as the tables stand |
| Verdicts.RowsAreTrueOfUploads | src/workers/image.worker.ts:54-98 | end to end: measures in a row come from a step at which the upload was acceptable as the tables stood, and a REJECTED row gives the one reason of a step at which it was true; a duplicate's match was then another live ACCEPTED row of the user within the threshold |
| Verdicts.CodesAreTrueOfUploads | src/workers/image.worker.ts:64-79 | read off a REJECTED row: its one code is one of the nine and, word for word, true of the upload -- DUPLICATE_IMAGE of a then ACCEPTED row of the user |
| Gate.GateHoldsExactlyUnlessBypassed | src/domain/services/image.service.ts:151-158 | along a run an image that was not seeded is ACCEPTED, in a stage or COMPLETED only after an admitting verdict, if and only if no reprocess call marked it before one |
| Gate.OnlyAdmittedAreProcessed | src/workers/image.worker.ts:104-109 | without such a call no job of a later stage exists for a live row that was never admitted |
| Verdicts.OnlyAcceptableUploadsAreProcessed | src/workers/image.worker.ts:104-109 | and through the gate, images are accepted, processed or completed only if some step of the run checked their upload and found it acceptable, similarity included |
| Twins.SecondCopyIsAccepted | src/infra/repositories/image.repository.ts:111-122 | in a run the chain decides, two uploads of one photo that passes the first four checks (and is not HEIC) are both accepted, the first being COMPLETED by then, with equal hashes |
| Witnesses.ReprocessBypassesValidation | src/domain/services/image.service.ts:151-158 | the condition is needed: an upload whose validation still waits reaches COMPLETED through a reprocess call, never admitted |
| Guarantees.LostSeedStrands | src/domain/services/image.service.ts:130-142 | a seed call whose enqueue rejects leaves an ACCEPTED row with nothing in progress |
| Guarantees.LostReprocessStrands | src/domain/services/image.service.ts:151-155 | a reprocess call whose enqueue rejects leaves PROCESSING_CONVERT with nothing in progress |
| Witnesses.LostFailureStrands | src/workers/processing/conversion.worker.ts:71-91 | three failed attempts and a rejected handler write leave an ACCEPTED row, no error, and nothing in progress |
| Witnesses.RepeatedHandOffStrands | src/workers/image.worker.ts:92-109 | a lost reply to the hand-off, a convert run that reaches COMPLETED, and the retried validation leave the image ACCEPTED and stuck, its second hand-off de-duplicated away |
| Guarantees.ConservationOfRuns | src/infra/queue/pipeline-queues.ts:98-113 | entries plus forks equal jobs in progress plus runs completed, refused, dropped, failed and collapsed |
| Guarantees.ForksExactlyAtLateHandOffs | src/workers/processing/conversion.worker.ts:50-51 | a step forks a run if and only if it is a hand-off whose add took effect although its await rejected |
| Guarantees.StepsAreBounded | src/infra/queue/pipeline-queues.ts:46-51 | with no new entries, a run from any state is no longer than the state's measure |
| Guarantees.PipelineSettles | src/infra/queue/pipeline-queues.ts:46-51 | every execution stops, only with nothing in progress, and then every run that entered or forked has ended in exactly one way |
| Attempts.ThrowIsRetried | src/infra/queue/pipeline-queues.ts:46-51 | at every stage, an await that throws leaves the same job with one throw more, queued if and only if that makes fewer than three and given up otherwise; any other await leaves the count alone |
| Attempts.AttemptsAreThrows | src/workers/processing/conversion.worker.ts:71-76 | in every reachable state a job has thrown exactly as often as its count says, and waits for its failure handler if and only if it has thrown three times |
| Attempts.AttemptsAreBounded | src/infra/queue/pipeline-queues.ts:46-51 | a job is granted three attempts and no fourth: it has started one per throw and one more while one is running; its whole run has started at most nine from convert on, twelve with validation, and counts them |
| Attempts.AttemptsTakeEveryStep | src/workers/processing/conversion.worker.ts:28-57 | an await that does not throw leads to the stage's next one -- its mark first, none left out -- or is the last and ends the job |
| Entries.JobsAreAdded | src/infra/queue/pipeline-queues.ts:88-113 | a step adds a job if and only if it is the enqueue of a call or the hand-off to the next stage, takes effect, and is not swallowed by a known convert id |
| Entries.IdsComeWithTheirJobs | src/infra/queue/pipeline-queues.ts:88-96 | a deterministic convert id comes to be known by its own add after validation or seeding, by nothing else, and is never forgotten |
| Entries.CallsTakeEveryStep | src/domain/services/image.service.ts:71-194 | an await of a call that succeeds leads to the call's next one, or was its last, or did not find the row |
| Entries.CallsStopAtFailure | src/domain/services/image.service.ts:71-194 | an await of a call that does not succeed ends it, the two object deletes of remove excepted |
| Entries.LedgerCountsAwaits | src/infra/queue/pipeline-queues.ts:88-113 | entered, completed, refused, dropped, failed and collapsed runs are each counted at their own await and nowhere else |
| Witnesses.SeededImageCompletes | src/domain/services/image.service.ts:118-145 | from every upload COMPLETED is reachable |
| PipelineInvariant.RunKeepsInv | src/workers/processing/variants.worker.ts:8-10 | every reachable state satisfies the invariant |
| PipelineInvariant.StepKeepsInv | src/workers/processing/variants.worker.ts:8-10 | every action, of whichever process, keeps the invariant |
| PipelineInvariant.ProcTurnOk | src/workers/processing/conversion.worker.ts:28-57 | one await of any process delivers its share of the invariant: tables, processes, job ids, care and balance |
| JobInvariant.JobAwaitOk | src/workers/processing/compression.worker.ts:30-61 | one await of any job keeps the tables sound and establishes what its next await relies on |
| JobInvariant.FanOk | src/workers/processing/variants.worker.ts:67-87 | one await of one of three concurrent resize tasks, its failure and the stragglers it leaves are sound |
| JobInvariant.ProcStays | src/infra/queue/pipeline-queues.ts:98-106 | interference freedom: a growing step of one process leaves what every other process relies on intact |
| Budget.ResumeShrinks | src/infra/queue/pipeline-queues.ts:46-51 | every resumed await lowers the measure, retries, hand-offs, stragglers and the handler included |
| Budget.NothingBlocks | src/infra/queue/pipeline-queues.ts:46-51 | every process in progress can always move |
| Tables.UpsertKeepsSlotsDistinct | prisma/schema.prisma:100 | the upsert keeps at most one row per (image, type) |
| Tables.UpsertWrite | src/infra/repositories/image.repository.ts:178-192 | upserting a true variant row keeps the tables sound and every existing variant in place |
| Tables.DeleteWrite | prisma/schema.prisma:89 | deleting an image row with its variants keeps the tables sound for all others |
| Tables.CascadeRows | prisma/schema.prisma:89 | the cascade removes the rows of the image and no others |
| Tables.RowWrite | src/infra/repositories/image.repository.ts:127-171 | any change of one row that keeps its fixed columns and unsets no output keeps the tables sound |
| Workers.ConvertJob | src/workers/processing/conversion.worker.ts:28-57 | the job body is the step system's convert attempt: after every await the tables, store and job ids it leaves behind, then the outcome and the jobs added, whatever happens in between |
| Workers.ConvertPut | src/workers/processing/conversion.worker.ts:47-48 | one of its awaits: the normalized object is put under its key, or the attempt is over as the failure demands |
| Workers.CompressJob | src/workers/processing/compression.worker.ts:30-73 | the same for the compress attempt |
| Workers.CompressSetRow | src/workers/processing/compression.worker.ts:55-60 | one of its awaits: key, size and rounded ratio in one row write |
| Workers.VariantsJob | src/workers/processing/variants.worker.ts:44-97 | the same for the variants attempt, stragglers included |
| Workers.ResizeAll | src/workers/processing/variants.worker.ts:67-87 | the three tasks interleave freely; the first rejection ends the attempt and leaves the others as stragglers |
| Workers.AdvanceTask | src/workers/processing/variants.worker.ts:69-86 | one await of one task: resize, put, upsert |
| Workers.ValidateJob | src/workers/image.worker.ts:34-111 | the same for the validation attempt, its hand-off de-duplicated by the job ids present at that moment; the verdict is that of the check await |
| Workers.PersistVerdict | src/workers/image.worker.ts:64-109 | its second half: rejection with its reasons, or display copy, acceptance with the measures, hand-off, each await in turn |
| Workers.OnFailed | src/workers/processing/conversion.worker.ts:71-91 | silent while retries remain, then the stage's one failure write: FAILED with the tag of the stage and the message, or for a validation with the one INTERNAL_ERROR |
| Workers.AttemptEnds | src/workers/processing/conversion.worker.ts:28-57 | every attempt at every stage ends, whatever its surroundings |
| Workers.DoneMeansRun | src/workers/processing/conversion.worker.ts:28-57 | what the job bodies promise, from the run's side: it ends, and the body went through exactly its worlds to its outcome |
| Runs.RunsAgree | src/workers/processing/conversion.worker.ts:28-57 | given its surroundings an attempt has one run |
| Workers.AwaitIsTurn | src/workers/processing/conversion.worker.ts:28-57 | each await of an attempt is the step the system takes when it resumes the job in that shared state: tables, the job itself, new jobs and stragglers, job ids, losses and counts |
| Services.Receive | src/domain/services/image.service.ts:71-145 | the whole of upload and seed: too large, unreadable or of a type not allowed leaves no trace at all; any other input is created |
| Services.Create | src/domain/services/image.service.ts:87-142 | past those checks upload and seed are the step system's creating process after every await: object, row, enqueue |
| Services.Reprocess | src/domain/services/image.service.ts:151-158 | reprocess is the step system's process after every await; not found exactly when the row is missing |
| Services.Remove | src/domain/services/image.service.ts:182-194 | remove is the step system's process after every await, then the row goes; and of the row it found, one await took the original out of the store and another the display object if there was one, in either order, unless that await rejected |
| Services.DoneMeansRun | src/domain/services/image.service.ts:71-194 | what the calls promise, from the run's side: every call ends, having gone through exactly its run's worlds |
| BackendState.Backend.Create | src/infra/repositories/image.repository.ts:34-36 | inserts the row, refuses a known id |
| BackendState.Backend.MarkProcessing | src/infra/repositories/image.repository.ts:59-64 | status alone; fails without effect when the row is missing |
| BackendState.Backend.MarkRejected | src/infra/repositories/image.repository.ts:83-91 | status and reasons together |
| BackendState.Backend.MarkFailed | src/infra/repositories/image.repository.ts:93-103 | FAILED with the one INTERNAL_ERROR reason |
| BackendState.Backend.MarkAccepted | src/infra/repositories/image.repository.ts:66-81 | ACCEPTED with width, height and hash, reasons cleared; a display key is set, an undefined one leaves the column as it was |
| BackendState.Backend.SetStatus | src/infra/repositories/image.repository.ts:126-163 | status write that clears the pipeline error |
| BackendState.Backend.SetNormalized | src/infra/repositories/image.repository.ts:135-140 | sets the normalized key and nothing else |
| BackendState.Backend.SetCompressed | src/infra/repositories/image.repository.ts:143-155 | sets the compressed key and its accounting |
| BackendState.Backend.MarkProcessingFailed | src/infra/repositories/image.repository.ts:166-171 | FAILED with the stage-tagged message |
| BackendState.Backend.UpsertVariant | src/infra/repositories/image.repository.ts:178-192 | updates the (image, type) row in place or inserts it; refused without an image row |
| BackendState.Backend.DeleteImage | src/infra/repositories/image.repository.ts:55-57 | removes the row and, with it, exactly its variants |
| BackendState.Backend.ListVariantsForImages | src/infra/repositories/image.repository.ts:199-212 | groups, by size, exactly the variants of the named images; images without any are absent |
| BackendState.GroupHoldsTheImagesRows | src/infra/repositories/image.repository.ts:199-212 | a group holds exactly the image's rows of the table, smallest first |
| BackendState.Backend.EnqueueConvert | src/infra/queue/pipeline-queues.ts:88-96 | the deterministic id collapses a second add; a fresh id always adds |
| BackendState.Backend.Enqueue | src/infra/queue/pipeline-queues.ts:107-113 | hand-offs always add a job |
| Keys.ParseRender | src/workers/processing/keys.ts:15-27 | every key but a display key is recovered whole from its string, for any user id, slashes included |
| Keys.KeySpellings | src/workers/processing/keys.ts:15-27 | every key but a display key, spelled out |
| Keys.RenderInjective | src/workers/processing/keys.ts:15-27 | different keys of a set of uploads never share a string, display keys included |
| Keys.ImageIdOfRender | src/workers/processing/keys.ts:13-27 | a decoder working from the right finds the image of every key |
| Keys.DisplayKeyLayout | src/workers/image.worker.ts:83 | the display key lands in the owner's display folder if and only if "/originals/" does not occur in "/<userId>/" |
| Keys.DisplayKeyCollides | src/workers/image.worker.ts:83 | why one owner per uuid is a hypothesis of RenderInjective: for one uuid under two owners -- which fresh uuids rule out -- a display key would equal another owner's original key |
| Rounding.ToFixedIsNearest | src/workers/processing/compression.worker.ts:59 | toFixed as in section 21.1.3.3 of ECMA-262: nearest multiple, ties to the larger magnitude |
| Rounding.StoredRatioError | src/workers/processing/compression.worker.ts:55-60 | the stored ratio is within 0.00005 of the true one, so that times the normalized bytes it gives the compressed bytes to within that share; with nothing to compress it is one |
| Rounding.ServedSavedPctError | src/domain/services/image.service.ts:227-234 | the served percentage is within 0.055 of the true one: times the normalized bytes it is a hundred times the bytes saved, give or take that |
| Rounding.LoggedSavedPctError | src/workers/processing/compression.worker.ts:63-71 | the logged one, rounded once, is within 0.05 |
| Rounding.NothingSaved | src/workers/processing/compression.worker.ts:55-71 | with nothing to compress both percentages are zero |
| Rounding.ServedVersusLogged | src/workers/processing/compression.worker.ts:63-71 | served and logged percentages are equal or exactly 0.1 apart |
| Rounding.ServedAndLoggedPart | src/domain/services/image.service.ts:227-234 | served and logged percentages differ if and only if the fourth decimal of the stored ratio is a 5 and storing it moved the ratio towards the figure that rounds up |
| Rounding.ServedAndLoggedCanDiffer | src/domain/services/image.service.ts:227-234 | an instance: 50054 of 100000 bytes |
| PHash.ComputePerceptualHash | src/workers/processors/phash.ts:33-95 | the nested loops compute the hash, each bit told from the coefficients alone: one if and only if at least 32 of the 63 are smaller than the one at its place |
| PHash.BitsAreRanks | src/workers/processors/phash.ts:64-93 | the same of the hash read back from its hex digits, with the coefficients as double sums over the pixels: direction, threshold and bit order |
| PHash.Dct1d | src/workers/processors/phash.ts:20-31 | the one-dimensional transform |
| PHash.TransformColumns | src/workers/processors/phash.ts:54-62 | row results transformed column by column are the two-pass coefficients |
| PHash.SeparableTransform | src/workers/processors/phash.ts:51-62 | the two passes equal the double sum over all pixels |
| Sorting.SortSorts | src/workers/processors/phash.ts:73-74 | sorting by a key gives an ordered permutation; the median, the list order and the variant order rest on it |
| PHash.HashIgnoresBrightnessAndContrast | src/workers/processors/phash.ts:64-87 | adding a constant to all pixels or scaling them by a positive factor leaves the hash unchanged |
| PHash.HashWeight | src/workers/processors/phash.ts:66-87 | at most 31 one bits, exactly 31 without ties, and a zero first bit |
| PHash.HashesAreAtMost62Apart | src/workers/processors/phash.ts:97-105 | two produced hashes are at most 62 apart |
| Hex.PackHex | src/workers/processors/phash.ts:89-93 | the packing loop |
| Hex.UnpackPack | src/workers/processors/phash.ts:89-93 | packed bits are lower-case hex and unpack to themselves |
| Hex.PackUnpack | src/workers/processors/phash.ts:89-93 | lower-case hex is packed back to itself |
| Hex.HammingDistance | src/workers/processors/phash.ts:97-105 | the xor-and-shift loop computes the distance |
| Hex.PackedDigit | src/workers/processors/phash.ts:89-93 | each hex digit stands for four bits, the first of them the highest |
| Hex.DigitValues | src/workers/processors/phash.ts:101 | a hex digit of either case has its value, any other character counts as zero |
| Hex.HammingOfUnequal | src/workers/processors/phash.ts:97-98 | strings of different lengths are four apart for every digit of the longer one |
| Hex.BitIsShiftAndMask | src/workers/processors/phash.ts:102 | the bits of a four-bit number are what shifting and masking give |
| Hex.XorIsBitwise | src/workers/processors/phash.ts:101-102 | the exclusive or of the distance is the bitwise operator |
| Hex.HammingOfPacked | src/workers/processors/phash.ts:97-105 | on packed hashes it counts the differing bits |
| Hex.HammingTriangle | src/workers/processors/phash.ts:97-105 | triangle inequality for all strings, unequal lengths included |
| Hex.HammingSymmetric | src/workers/processors/phash.ts:97-105 | symmetry |
| Hex.HammingZero | src/workers/processors/phash.ts:97-105 | on lower-case hex, zero if and only if equal |
| Blur.Variance | src/workers/validators/blur.validator.ts:35-58 | the loops read only inside the array, keep every accumulator an integer below 2^53, and end with the one-pass figure |
| Blur.InteriorAt | src/workers/validators/blur.validator.ts:42-55 | every interior pixel is looked at once, row by row, as its four neighbours less four times itself |
| Blur.OnePassIsTwoPass | src/workers/validators/blur.validator.ts:57-58 | mean of squares minus squared mean is the mean squared deviation |
| Blur.VarianceZero | src/workers/validators/blur.validator.ts:57-58 | never negative, and zero if and only if all Laplacians are equal |
| Blur.VarianceBound | src/workers/validators/blur.validator.ts:42-58 | between 0 and 1020^2 for 8-bit pixels |
| Blur.VarianceIgnoresRamps | src/workers/validators/blur.validator.ts:42-60 | adding any affine ramp to the pixels changes neither figure nor verdict |
| Blur.NoInteriorNoVerdict | src/workers/validators/blur.validator.ts:57-60 | undefined if and only if a side is shorter than three pixels, and then never too blurry |
| Chain.Run | src/workers/pipeline/validation-pipeline.ts:34-62 | the loop over context-mutating validators, in both modes |
| Chain.CollectAllReportsAll | src/workers/pipeline/validation-pipeline.ts:15-21 | collect-all reports every reason, or rethrows |
| Chain.FailFastReportsFirst | src/workers/pipeline/validation-pipeline.ts:55-58 | fail-fast reports the first reason whatever follows; without reasons both modes do the same, context included |
| Chain.FailFastAgreesWithCollectAll | src/workers/pipeline/validation-pipeline.ts:34-62 | when collect-all returns, same verdict, and fail-fast's reasons are the first of its reasons |
| Chain.ModesPartOnlyOnALaterThrow | src/workers/pipeline/validation-pipeline.ts:40-58 | the modes part if and only if a validator rejects and a later one throws |
| Chain.AcceptedMeansNoReason | src/workers/pipeline/validation-pipeline.ts:55-61 | accepted if and only if all validators ran and none threw or gave a reason |
| Chain.RejectionWithoutReasonAccepted | src/workers/pipeline/validation-pipeline.ts:55-58 | a rejection without a reason is ignored |
| Validation.DefaultChainAccepts | src/workers/pipeline/pipeline.factory.ts:23-31 | the default chain accepts exactly the acceptable uploads, and an accepted context carries dimensions, hash, mime type and display copy |
| Validation.RejectionIsJustified | src/workers/pipeline/validation-pipeline.ts:34-62 | a rejecting default chain gives exactly one reason, and each code is true of the upload: what was too small, too blurry, missing, too many or whose duplicate |
| Validation.DimensionFirstRejectsEverything | src/workers/pipeline/pipeline.factory.ts:4-12 | with the dimension check before the format check nothing is accepted |
| Validation.ShiftedCopyIsDuplicate | src/workers/validators/similarity.validator.ts:25-46 | a brightness- or contrast-shifted copy of an accepted image is rejected as a duplicate |
| Validation.ValidateFormat | src/workers/validators/format.validator.ts:21-70 | the context writes, in order, and the outcome |
| Validation.ValidateSimilarity | src/workers/validators/similarity.validator.ts:25-46 | hash stored on the context whatever the outcome, then the scan |
| Validation.ScanHashes | src/workers/validators/similarity.validator.ts:31-45 | rejects with the first hash within the threshold, passes if and only if there is none |
| Validation.DimensionPasses | src/workers/validators/dimension.validator.ts:15-47 | passes if and only if bytes and both measured sides reach the minimums |
| Validation.FacePasses | src/workers/validators/face.validator.ts:23-79 | passes if and only if the count is in range and some face's width times height reaches its part of the image's |
| Paging.PagingIsLossless | src/api/controllers/images.controller.ts:66-79 | following nextCursor stops, and the pages concatenate to exactly the matching rows, newest first, each once, whatever order rows of one instant come in; all but the last page are full |
| Paging.SelectedRows | src/infra/repositories/image.repository.ts:46-53 | any list the query may give holds exactly the user's matching rows, each once, newest first |
| Paging.NextPage | src/infra/repositories/image.repository.ts:46-53 | the page after a row starts right behind it |
| Paging.BeyondTheCap | src/domain/services/image.service.ts:173-180 | were a larger limit let through, paging would stop after 100 rows, losing some if and only if there are more |
| LoadTest.Pool.Resume | scripts/load-test.ts:53-62 | one step of a pool worker between two suspensions |
| LoadTest.BoundedPool | scripts/load-test.ts:53-62 | in every interleaving each item is claimed once and in order, at most min(limit, n) are in flight, and the run stops |
| LoadTest.PoolFillsUp | scripts/load-test.ts:53-62 | and some run has min(limit, n) of them in flight |
| LoadTest.PoolFinishes | scripts/load-test.ts:53-62 | when all workers have returned, all items are done exactly once if and only if limit is at least one or there are none |
| LoadTest.Poll | scripts/load-test.ts:132-153 | an id is settled with the first COMPLETED or FAILED it is answered with, and stuck if and only if no round answers either |
| LoadTest.ReportAddsUp | scripts/load-test.ts:156-172 | completed plus failed plus stuck equals submitted |
| LoadTest.PercentileCutsOff | scripts/load-test.ts:86-90 | the entries before the reported rank are at most p percent of all, and with it more |
| LoadTest.PercentileIsCut | scripts/load-test.ts:86-90 | the reported entry: at most p percent of all entries are smaller, and more than p percent are not larger |
| LoadTest.PercentilesAreOrdered | scripts/load-test.ts:86-90 | percentiles grow with p, from the minimum to the maximum |

## Left out

- Workers.ValidateJob: the chain's run is one await whose verdict is an input; `Verdicts.CheckIsTheChain` says what the default chain makes of it. The chain's single awaits are not interleaved with other processes; its one read of shared state, the hash query, happens at that step.
- Rounding.ToFixedIsNearest: over exact reals, as are the other results of `Rounding`; the binary rounding of quotients before `toFixed` is not modelled.
- Workers.VariantsJob: the three tasks interleave in any order, but two of them never run truly in parallel; JavaScript's single thread has the same limit.
- Services.Receive: the byte sniffer's finding is an input; file name and size columns are not in the modelled row.
- PHash.ComputePerceptualHash: exact reals and a cosine table as parameter; rounding inside the transform is not modelled.
- PHash.HashIgnoresBrightnessAndContrast: assumes that rows k >= 1 of the table sum to zero, which the true cosines do.
- Blur.Variance: the accumulators are proved exact; the two divisions at the end are over exact reals.
- Paging.PagingIsLossless: assumes a table that does not change while it is read and rows of one instant in the same order at every request; a cursor names a row by its id, and the answer starts behind that row.
- LoadTest.BoundedPool: the task function never rejects, as at both of its call sites.
- LoadTest.Poll: the deadline decides how many rounds there are; within a round the ids are asked one after another, which their independence allows.
- Image codecs, HEIC decoding, face detection, file sniffing: deterministic parameters.
- BullMQ beyond add, retry and the failed event: stalled jobs, backoff times, eviction of retained jobs (a deterministic convert id stays present for ever here).
- Status events, server-sent events, logging, metrics, presigned URLs, configuration loading, routes and middleware: no effect on the modelled state.
- Near-duplicates checked at the same time: each check sees the rows that are ACCEPTED at its own moment; no uniqueness among accepted images is claimed, and `Twins.SecondCopyIsAccepted` shows there is none.
