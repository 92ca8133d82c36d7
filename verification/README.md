# The run ledger, the spec builder and the local process runtime, verified

This project models four connected parts of the nano-backend.ai manager and agent in Dafny and
proves laws about them.

- **The run ledger.** A submitted spec is flattened into five SQLite tables in one transaction and
  rebuilt by four separate queries. `Schema` holds the tables with their primary, unique and foreign
  keys, `Entities` the flattening and rebuilding, `Repository` the database handle with its single
  connection and the repository methods on it, `Ledger` and `Queries` what the tables stand for.
  `LedgerProtocol` lets any number of clients create runs, submit drafts, ask for specs and migrate
  again, one statement at a time in any interleaving; `LedgerRuns` and `SubmitRuns` state the laws
  of whole runs, `Progress` that every call can be carried to its end. `Timestamps`, `Numbers` and `Uuid` are the text codecs the ledger relies on.
- **The spec builder.** `GoValues` models nested `any` values as heap objects, with the two deep
  copies of the code and the references they do not reach behind. `TrainerPresets` holds presets,
  their option policies and the static registry, `SpecBuilder` the lookup and the layered merge, in
  place and on the heap. `Isolation` says how far a finalized spec is cut off from what it was made
  of. `Finalization` says what the merge means, on values. `Service` puts builder and ledger together.
- **The LocalProcess runtime.** `LocalProcess` is the protocol of callers, mutex, map, channels,
  reapers and the operating system as atomic steps, `LocalProcessSafety` its invariant,
  `LocalProcessMethods` the three operations as code whose every statement is one of those steps,
  and `LocalProcessRuns` the laws of whole runs.
- **The run lifecycle.** `Lifecycles` is the state machine of a run, with laws over any sequence of
  requests, rejected ones included.

`dafny verify dfyconfig.toml` checks everything.

## What the proofs show about the code

- The list order is the order of timestamp text, and that is not always the order of time: within
  one second a stripped fraction that continues another one sorts before it.
  `Timestamps.TextOrderCanFail` names two such instants, `Timestamps.TextOrderIsTimeOrderIff` the exact
  condition; listings are still never out of order by a whole second (`Queries.ListingKeepsSeconds`).
- The ledger gives a run back exactly as it was handed over if and only if it has no idempotency key,
  no failure reason, no start and no finish time (`Entities.RunRoundTripIff`): `insertRun` writes five
  columns and no more. Every run that Submit makes is such a run.
- A spec reads back up to one normalization (`Ledger.CreatedSpecReadsBack`): parameters become their
  number literals and nil preset refs become absent.
- A stored parameter is a JSON number if and only if the literal it came with is one
  (`Ledger.StoredParameterIsJsonIff`). Integers always are; `json.Number("abc")` converts and is stored
  as it is (`Ledger.AnyLiteralIsStored`).
- A preset's model, data and resource options beat the draft's, while the draft's training
  parameters beat every preset's (`Finalization.LayersGiveFinalized`, `Finalization.MergePrecedence`).
- A finalized spec is isolated from its draft and presets in all its maps and slices
  (`Isolation.FinalizeAgain`), but it keeps the draft's ref pointers and any other reference inside a
  parameter. It reaches nothing but objects of its own if and only if no ref pointer is set and no
  parameter holds such a reference (`Isolation.SelfContainedIff`); otherwise one write through it
  changes the draft or a preset (`Isolation.WriteThrough`). `Isolation.TrainerRefIsShared` shows it:
  redirecting the trainer ref of a built spec makes the next spec of the same draft one for another
  preset.
- A preset ref is checked against the presets table, but not against that preset's category. On the
  presets of Phase 0 a stored ref is of its preset's category if and only if it is a trainer ref
  (`SubmitRuns.RefCategoryIff`), and a draft is right in all three if and only if it sets neither a
  resource nor an output ref (`SubmitRuns.DraftCategoriesIff`). `SubmitRuns.TrainerPresetAsResource` is a draft that is
  built and stored with a trainer preset as its resource preset.
- Destroy can answer ErrRuntime for a process that has exited and was already waited for:
  `LocalProcessRuns.RuntimeErrorAfterExit` is such a run. A Destroy whose Kill failed does so if and only
  if the channel has not been closed before it looks (`LocalProcessRuns.RuntimeErrorIff`), and it deletes
  nothing then.

Two remarks on the design document, which no proof here is about: it calls the trainer ref required for
preset-backed building, while the code accepts a draft without it, and so does the model; and it has
parameter keys checked against the option policy, while the only validator the code has accepts
everything, so the model takes the validator's verdict as a parameter.

## Model

| member | source | states |
|---|---|---|
| Timestamps.ParseOfFormat | internal/common/encoding/encoding.go:28-40 | every formatted instant parses back to itself, nanoseconds included |
| Timestamps.FormatSample | internal/common/encoding/encoding.go:28-31 | a sample instant in its full text: padded fields, separators, fraction without trailing zeros, Z |
| Timestamps.TextOrderIsTimeOrderIff | internal/common/encoding/encoding.go:28-31 | two timestamps sort as text as they do in time exactly when their seconds differ, they are equal, or neither zero-stripped fraction is a proper prefix of the other |
| Timestamps.EqualWidthsSortChronologically | internal/common/encoding/encoding.go:28-31 | fractions of equal width always sort in time order |
| Timestamps.TextOrderKeepsSeconds | internal/common/encoding/encoding.go:28-31 | text order never contradicts the order of whole seconds |
| Timestamps.TextOrderCanFail | internal/common/encoding/encoding.go:28-31 | midnight of 21 May 2026 and half a second later: the later instant has the smaller text |
| Timestamps.StampsAreTheirCharacters | internal/manager/repository/db/entity/run.go:39-63 | a timestamp column parses to the instant it was written from, and two are equal exactly when their characters are |
| Numbers.FormatIntRoundTrip | internal/common/encoding/encoding.go:49-54 | every integer prints as a number of RFC 8259 section 6 and parses back to the same integer |
| Numbers.FormatNumberMeaning | internal/common/encoding/encoding.go:45-62 | exactly json.Number, int, int32, int64, float32 and float64 are formatted: an integer as the one JSON numeral that denotes it, any other as the literal it brings along |
| Numbers.FormatNumberIsIdempotent | internal/common/encoding/encoding.go:45-48 | a literal that was formatted once is a fixed point, so storing it again writes the same text |
| Numbers.FormattedIsJsonIff | internal/common/encoding/encoding.go:45-62 | formatted text is a JSON number, by the whole grammar of RFC 8259 section 6, exactly when the literal the value brings along is one; for integers always |
| Uuid.ScanOfPrint | internal/manager/repository/db/entity/spec.go:51-59 | an identifier's canonical text parses back to it |
| Uuid.ColumnsAreTheirCharacters | internal/manager/repository/db/entity/spec.go:51-59 | identifier columns are equal exactly when their characters are |
| Phase0.AxolotlText | internal/manager/repository/db/migrations/001_init.sql:81-82 | the identifier in the code prints as the text the migration seeds |
| Phase0.UnslothText | internal/manager/repository/db/migrations/001_init.sql:81-83 | the identifier in the code prints as the text the migration seeds |
| Schema.RefusalIsFinal | internal/manager/repository/db/run.go:147-164 | once one statement of a transaction is refused, the transaction as a whole cannot succeed |
| Schema.PermitsIff | internal/manager/repository/db/migrations/001_init.sql:8-38 | from consistent tables an insert is permitted exactly when its primary key is new and all REFERENCES and UNIQUE constraints hold afterwards |
| Schema.MigrateIsIdempotent | internal/manager/repository/db/dbrepo.go:50-68 | migrating a migrated database changes nothing and always leaves it seeded |
| Repository.RunRepository.MigrateAgain | internal/manager/repository/db/dbrepo.go:50-68 | migrating a ledger in use keeps it valid and leaves it seeded |
| Entities.FromData | internal/manager/repository/db/entity/spec.go:99-143 | it succeeds exactly when both identifiers are set and every parameter is of a number type; then every column holds its field, ordinals are 0, 1, 2, ..., and each parameter stands as its own text, whatever order the map is visited in |
| Entities.ToData | internal/manager/repository/db/entity/spec.go:51-96 | the rebuilt spec, or nothing when an identifier does not parse |
| Entities.SpecRoundTrip | internal/manager/repository/db/entity/spec.go:51-143 | rebuilding any flattening gives the spec back with its parameters as number literals |
| Entities.NormalIsIdempotent | internal/manager/repository/db/entity/spec.go:69-72 | a spec read back from the ledger is its own normal form and has the same flattenings of its parameters as the original |
| Entities.RunToData | internal/manager/repository/db/entity/run.go:26-78 | it fails exactly when an identifier or a time is malformed; otherwise the row is the full row of the run it returns |
| Entities.RunOfIff | internal/manager/repository/db/entity/run.go:26-78 | a row stands for a run exactly when it is that run's full row, all optional columns included |
| Entities.RunRoundTripIff | internal/manager/repository/db/run.go:219-229 | a stored run reads back unchanged if and only if its four optional fields are absent |
| Ledger.InsertsExecute | internal/manager/repository/db/run.go:139-229 | the statements of CreateRun all succeed exactly when the schema admits spec and run, and then leave the same tables for every order of the parameter rows |
| Ledger.CreatedSpecReadsBack | internal/manager/repository/db/run.go:139-229 | what CreateRun stored under a spec's identifier reads back as that spec, normalized |
| Ledger.CreatedSpecReadsBackByField | internal/manager/repository/db/run.go:139-229 | field by field: what CreateRun stored reads back with the spec's own fields, refs to nothing absent, and each parameter as the text its value has to have |
| Ledger.AddedRowsByColumn | internal/manager/repository/db/run.go:166-229 | the spec row and the run row CreateRun adds, column by column |
| Ledger.AddedDatasetsByColumn | internal/manager/repository/db/run.go:182-189 | the dataset rows CreateRun adds, column by column, and no others |
| Ledger.AddedParametersByColumn | internal/manager/repository/db/run.go:190-197 | the parameter rows CreateRun adds, each with the text its value has to have, and no others |
| Ledger.AddedRefsByColumn | internal/manager/repository/db/run.go:198-215 | a preset row for each ref that is neither absent nor Nil, and no others |
| Ledger.CreateRunAppends | internal/manager/repository/db/run.go:139-229 | CreateRun adds exactly the entry of its own run to the map from run to spec and changes no other |
| Ledger.AddRunKeepsValid | internal/manager/repository/db/run.go:139-229 | CreateRun keeps all foreign keys, gap-free ordinals and convertible columns |
| Ledger.AddRunExtends | internal/manager/repository/db/run.go:139-229 | CreateRun touches no row of any spec or run that was there |
| Ledger.NormalStoresTheSame | internal/manager/repository/db/run.go:139-229 | storing a spec that was read back writes the very same rows into all five tables |
| Ledger.StoredParameterIsJsonIff | internal/manager/repository/db/entity/spec.go:116-126 | the stored text of a parameter is a JSON number exactly when the literal it came with is one |
| Ledger.AnyLiteralIsStored | internal/manager/repository/db/entity/spec.go:116-126 | the literal abc converts and is stored as it is, although it is no JSON number |
| Ledger.SpecOfRunIsStable | internal/manager/repository/db/run.go:44-85 | a run's spec reads the same in every later state of the ledger |
| Ledger.MigrateChangesNoSpec | internal/manager/repository/db/dbrepo.go:50-68 | migrating a ledger in use changes the spec of no run |
| Queries.RowsRebuildSpec | internal/manager/repository/db/run.go:44-85 | the four queries rebuild the stored spec for every order of the unordered parameter and preset-ref rows, with datasets in ordinal order |
| Queries.SelectionIsStable | internal/manager/repository/db/run.go:231-287 | a query on a later state may return exactly what it might have returned on an earlier one |
| Queries.ListingKeepsSeconds | internal/manager/repository/db/run.go:88-123 | listed runs never go back to a later second, and every listed row converts |
| Queries.ListingOmitsNoLaterSecond | internal/manager/repository/db/run.go:102-112 | no run that a limit cuts off is in a later second than a listed one |
| Repository.Database.SelectRuns | internal/manager/repository/db/run.go:102-112 | a duplicate-free list of the project's own runs in descending text order, of length min(limit, runs) or all of them for a negative limit, omitting no run with a strictly newer text |
| Repository.Database.SelectDatasets | internal/manager/repository/db/run.go:231-242 | every dataset row of the spec once, by ascending ordinal |
| Repository.RunRepository.CreateRun | internal/manager/repository/db/run.go:139-164 | all or nothing: on any error the committed tables are as before; unless the driver fails, it succeeds exactly when the spec converts and the schema admits it, and adds exactly its rows; a failure is reported exactly when the driver failed |
| Repository.RunRepository.SendSpec | internal/manager/repository/db/run.go:166-217 | the open transaction has executed the spec, dataset, parameter and set preset-ref inserts in order, or one of them is refused |
| Repository.RunRepository.GetSpec | internal/manager/repository/db/run.go:44-85 | a failure is reported exactly when the driver failed a query; otherwise the stored spec of a known run and not found for any other |
| Repository.RunRepository.CollectRefs | internal/manager/repository/db/run.go:256-287 | the refs the rows stand for, or nothing for an unknown category or a malformed identifier |
| Repository.RunRepository.ListProjectRuns | internal/manager/repository/db/run.go:88-123 | a failure is reported exactly when the driver failed a query; otherwise not found for an unknown project and the selected rows converted for a known one |
| Repository.RunRepository.ProjectExists | internal/manager/repository/db/run.go:126-136 | a failure is reported exactly when the driver failed the query; otherwise whether the project is in the table |
| LedgerProtocol.StepKeepsInv | internal/manager/repository/db/run.go:44-164 | every step of every client keeps the invariant, and the committed tables only ever grow |
| LedgerProtocol.CommitAddsRun | internal/manager/repository/db/run.go:147-163 | at commit the transaction holds the committed tables plus exactly its own run |
| LedgerRuns.StepRefinesAppendOnlyMap | internal/manager/repository/db/run.go:139-164 | a commit adds its run, which was new, to the map from run to spec; no other step changes any entry |
| LedgerRuns.CommittedSpecsAreForEver | internal/manager/repository/db/run.go:44-85 | in any run, once a run shows a spec it shows the same one in every later state |
| LedgerRuns.GetSpecReturnsTheCommittedSpec | internal/manager/repository/db/run.go:44-85 | over every interleaving, a GetSpec that answers for a committed run answers with exactly the spec that was committed, normalized |
| LedgerRuns.AnswersStayRight | internal/manager/repository/db/run.go:44-85 | an answer given once is the right answer at any later time |
| LedgerRuns.MissingMeansAskedTooEarly | internal/manager/repository/db/run.go:44-62 | a GetSpec reports a missing run only if its first query came before the run was committed |
| LedgerRuns.NothingIsEverBroken | internal/manager/repository/db/run.go:44-123 | in no run does a GetSpec or a listing meet rows it cannot convert |
| LedgerRuns.ListingIsASnapshot | internal/manager/repository/db/run.go:88-123 | over every interleaving, a listing is a correct selection from the ledger of one moment during the call |
| LedgerRuns.ListingMissesNothingEarlier | internal/manager/repository/db/run.go:88-123 | every run committed before that moment is listed, unless the limit is used up by runs whose text is not below its own; listed runs stay as they are |
| LedgerRuns.AllOrLimited | internal/manager/repository/db/run.go:102-112 | a listing holds every run of the project, or is as long as the limit and holds none whose text is below the missing one's |
| SubmitRuns.SubmittedConvertsIff | internal/manager/service/runsvc/run.go:67-76 | a built spec converts exactly when the draft's own parameters are numbers and it names a project |
| SubmitRuns.DefaultsAreTheSeededOnes | internal/manager/repository/db/migrations/001_init.sql:113-125 | the presets' defaults in the code print as the default texts the migration seeds, key by key |
| SubmitRuns.BuiltStoresDraft | internal/manager/service/runsvc/run.go:67-75 | in an interleaved Submit, what is built from a submittable draft will read back field by field as the draft says, for a new queued run; any other draft is turned down |
| SubmitRuns.DraftsAreAnswered | internal/manager/service/runsvc/run.go:48-80 | from draft to answer: over every interleaving, a GetSpec that answers for a submitted run tells what its draft says |
| SubmitRuns.SubmittedIsAdmitted | internal/manager/repository/db/migrations/001_init.sql:127-146 | for an accepted draft, an existing project and fresh identifiers no insert can violate a key; every accepted preset is seeded |
| SubmitRuns.SubmitStepKeepsInv | internal/manager/service/runsvc/run.go:59-80 | every step of interleaved Submits, queries and migrations keeps rows and successful Submits in balance and every pending write admissible |
| SubmitRuns.SubmitsAreConserved | internal/manager/service/runsvc/run.go:59-80 | at every moment specs, runs and successful Submits are equally many, and each run owns its own spec, shares its project and is queued with nothing else filled in |
| SubmitRuns.NoSubmitIsRefused | internal/manager/service/runsvc/run.go:63-78 | no statement of an interleaved Submit is ever refused, although checking the project and committing are separate steps |
| Progress.SubmitCanFinish | internal/manager/service/runsvc/run.go:59-80 | while the connection is free a submittable draft can be carried from the call to its commit by the client's own steps, and its run then shows what the draft says |
| Progress.GetSpecCanFinish | internal/manager/repository/db/run.go:44-85 | while the connection is free, asking for a committed run can be carried to the right answer |
| Progress.ListingCanFinish | internal/manager/repository/db/run.go:88-123 | while the connection is free, listing an existing project can be carried to a correct selection |
| SubmitRuns.NewLedgerIsAStart | internal/manager/repository/db/dbrepo.go:50-68 | a ledger opened for the first time meets the start conditions of these laws |
| SubmitRuns.RefCategoryIff | internal/manager/repository/db/migrations/001_init.sql:127-132 | on the Phase 0 presets a stored ref is of its preset's category exactly when it is a trainer ref |
| SubmitRuns.DraftCategoriesIff | internal/manager/runspec/specbuilder/specbuilder.go:62-66 | an accepted draft names presets of the right categories exactly when it sets neither a resource nor an output ref |
| SubmitRuns.TrainerPresetAsResource | internal/manager/runspec/specbuilder/specbuilder.go:62-66 | a draft with the Axolotl trainer preset as its resource preset is built, converts and is admitted |
| Service.RunService.Submit | internal/manager/service/runsvc/run.go:59-80 | unless the driver fails or the context ends, the draft decides: no draft, unknown project, unknown preset, parameters that are not numbers or a nil project, or success; on error nothing is stored; on success exactly one spec and one queued run are added, and the spec reads back field by field as the draft says |
| Finalization.MergePrecedence | internal/manager/runspec/specbuilder/finalize.go:37-62 | merged parameters have the union of the keys, with precedence draft, output, resource, trainer |
| Finalization.FinalizedFields | internal/manager/runspec/specbuilder/finalize.go:17-51 | identity, name, description and refs are the draft's; model, data and resources are what the last preset that says anything says, and the draft's if none does |
| Finalization.LayersGiveFinalized | internal/manager/runspec/specbuilder/finalize.go:17-62 | applying the presets one after the other and then the draft gives the last preset defining an option, or the draft's own, and the merged parameters |
| Finalization.DistinctKeepsOrder | internal/manager/runspec/specbuilder/specbuilder.go:78-93 | the identifiers to look up stand in the order of their first occurrence |
| GoValues.HoldsOneValue | internal/manager/runspec/specbuilder/finalize.go:73-90 | in one heap a Go value stands for at most one value, however its parts are shared |
| GoValues.CopyValue | internal/manager/runspec/specbuilder/finalize.go:73-90 | the copy of an acyclic value equals it, all its maps and slices are new, nil containers become empty ones, and any other reference is the very same one |
| GoValues.CopyEntries | internal/manager/runspec/specbuilder/finalize.go:52-61 | assigning copies key by key, in any order, overrides exactly the assigned keys; other references stay the same ones |
| GoValues.CloneAny | internal/manager/runspec/preset/preset.go:113-126 | the clone equals the value, its maps and slices are new, a nil map stays nil, a nil slice becomes empty, and any other reference is the very same one |
| GoValues.CloneAnyMap | internal/manager/runspec/preset/preset.go:102-111 | the clone equals the map, its maps and slices are new and other references the same ones; nil stays nil |
| GoValues.HoldsAloneIff | internal/manager/runspec/specbuilder/finalize.go:73-90 | a value reaches nothing but its maps and slices exactly when it holds no other reference |
| GoValues.MentionedIsShared | internal/manager/runspec/specbuilder/finalize.go:87-88 | every other reference a value or a copy of it mentions is to one of the shared referents, as it is now |
| TrainerPresets.CloneRules | internal/manager/runspec/preset/preset.go:78-87 | a new rules map with the same rules and new cells for their bounds; nil stays nil |
| TrainerPresets.CloneRule | internal/manager/runspec/preset/preset.go:89-100 | a rule with the same type and bounds and bounds of its own |
| TrainerPresets.OptionPolicy | internal/manager/runspec/preset/preset.go:68-71 | the policy handed out says what the preset's own does and consists of new objects |
| TrainerPresets.OptionPolicyAgain | internal/manager/runspec/preset/preset.go:68-71 | whatever is written to a policy handed out, the preset's own and the next one handed out stay the same |
| TrainerPresets.OptionsOf | internal/manager/runspec/preset/preset.go:73-76 | a trainer preset's options hold its defaults in new objects; another implementation may hand out its own |
| TrainerPresets.StaticRegistry.constructor | internal/manager/runspec/preset/registry.go:17-24 | of two presets with one identifier the later is registered, in a struct of its own that shares the argument's maps |
| TrainerPresets.LastRecordIsRegistered | internal/manager/runspec/preset/registry.go:17-24 | the last record of every identifier in the list is the one registered |
| TrainerPresets.StaticRegistry.GetMany | internal/manager/runspec/preset/registry.go:36-49 | all presets asked for, exactly when the context is live and all are registered; otherwise the first identifier that is not |
| TrainerPresets.StaticRegistry.Get | internal/manager/runspec/preset/registry.go:27-33 | the preset of the identifier, or the error GetMany gives for it |
| TrainerPresets.StaticRegistry.List | internal/manager/runspec/preset/registry.go:52-73 | each registered preset exactly once, without repetition, by strictly ascending identifier text |
| TrainerPresets.NewPhase0Registry | internal/manager/runspec/preset/fixtures.go:4-94 | the registry serves the two Phase 0 presets with their literal defaults and rules, and they have no storage in common |
| SpecBuilder.DataOptions | internal/manager/runspec/specbuilder/finalize.go:117-123 | a new slice with the same datasets |
| SpecBuilder.SpecObject.constructor | internal/manager/runspec/specbuilder/finalize.go:17-29 | the draft with no parameters yet, in objects of its own but with the draft's own ref pointers |
| SpecBuilder.SpecObject.OverridePreset | internal/manager/runspec/specbuilder/finalize.go:42-54 | one preset's options over the spec, with none of the preset's maps or slices |
| SpecBuilder.SpecObject.OverridePresetOptions | internal/manager/runspec/specbuilder/finalize.go:37-56 | all presets in category order, for every map iteration order |
| SpecBuilder.SpecObject.OverrideDraftOptions | internal/manager/runspec/specbuilder/finalize.go:58-62 | the draft's parameters over all others |
| SpecBuilder.FinalizeRunSpec | internal/manager/runspec/specbuilder/finalize.go:13-35 | the result stands for the finalized spec; its maps and slices are new, its ref pointers are the draft's, and other references in parameters are those of draft and presets |
| Isolation.SelfContainedIff | internal/manager/runspec/specbuilder/finalize.go:17-35 | a finalized spec reaches nothing but its own new objects exactly when no ref pointer is set and no parameter holds a reference other than a map or slice |
| Isolation.FinalizeAgain | internal/manager/runspec/specbuilder/finalize.go:37-90 | after arbitrary writes to the fields, maps and slices of a finalized spec, draft and presets are unchanged and finalizing again gives the same spec; for a self-contained spec that is everything it reaches |
| Isolation.WriteThrough | internal/manager/runspec/specbuilder/finalize.go:22-22 | unless the finalized spec is self-contained, a write through one of its references changes the spec and the draft or a preset |
| Isolation.TrainerRefIsShared | internal/manager/runspec/specbuilder/finalize.go:22-22 | overwriting the trainer ref of a spec built from an Axolotl draft turns the draft, and the next spec built from it, into one for Unsloth |
| SpecBuilder.CollectPresetIDs | internal/manager/runspec/specbuilder/specbuilder.go:78-93 | the set refs without repetition, in the order of first occurrence |
| SpecBuilder.ReadPreset | internal/manager/runspec/specbuilder/specbuilder.go:70-76 | succeeds exactly when every set ref is registered and no lookup meets a cancelled context; every set ref is then resolved to its own preset |
| SpecBuilder.ReadPresets | internal/manager/runspec/specbuilder/specbuilder.go:54-67 | each category gets the preset of its own ref; a failed lookup names an identifier that is not registered |
| SpecBuilder.Build | internal/manager/runspec/specbuilder/specbuilder.go:35-52 | exactly when it succeeds and which error comes first; the result is the finalized spec, new but for the draft's ref pointers and other references in parameters |
| Lifecycles.Lifecycle.Transition | internal/common/data/run/status.go:86-115 | the verdict on a request and the whole next state; a rejected request changes nothing |
| Lifecycles.EveryStateIsWellFormed | internal/common/data/run/status.go:62-115 | in every reachable state a non-empty reason is there exactly when failed, a finish time exactly in terminal states, a start time only where running was entered; and the number of accepted requests is exactly what the status tells |
| Lifecycles.MovesAre | internal/common/data/run/status.go:70-84 | the five permitted moves and no others |
| Lifecycles.VerdictsAre | internal/common/data/run/status.go:87-95 | which requests are invalid transitions, and which only lack a reason |
| Lifecycles.NewRunPrepares | internal/common/data/run/status.go:73-74 | a new run accepts exactly the request for preparing |
| Lifecycles.FailureReasonIsTheRequests | internal/common/data/run/status.go:92-97 | the reason of a failed run is the one of the request that failed it, for good |
| Lifecycles.FailedHasItsRequest | internal/common/data/run/status.go:92-97 | no run is failed without such a request |
| Lifecycles.StartTimeIsFixed | internal/common/data/run/status.go:103-108 | the start time is that of the request that entered running, and is never rewritten |
| Lifecycles.StartTimeHasItsRequest | internal/common/data/run/status.go:103-108 | a start time exists only if some accepted request entered running |
| Lifecycles.FinishTimeIsFixed | internal/common/data/run/status.go:109-112 | the finish time is that of the request that ended the run |
| Lifecycles.FinishTimeHasItsRequest | internal/common/data/run/status.go:109-112 | a finish time exists only if some accepted request ended the run |
| Lifecycles.TimesAreOrdered | internal/common/data/run/status.go:86-115 | with a clock that never goes back, created, started and finished are in order |
| Lifecycles.TerminalStatesAreFinal | internal/common/data/run/status.go:79-80 | no request changes a terminal state |
| Lifecycles.WholeRunLaws | internal/common/data/run/status.go:62-115 | over any requests at most three are accepted, and exactly the accepted ones change the state |
| Lifecycles.FailIsAcceptedIff | internal/common/data/run/status.go:45-51 | Fail is accepted exactly while preparing or running and with a non-empty reason; failing without a reason never is |
| Lifecycles.ThreeRequestsSucceed | internal/common/data/run/status.go:62-115 | three accepted requests lead from a new run to success, so the bound of three is met |
| LocalProcessSafety.StepKeepsInv | internal/agent/local_process.go:35-130 | every step of every caller, reaper and process keeps the invariant |
| LocalProcessMethods.Runtime.Create | internal/agent/local_process.go:35-68 | whatever the others do between its statements: a started child is in the map at the moment its identifier is returned, a command that cannot start leaves nothing behind, and a call without an answer is blocked on the mutex |
| LocalProcessMethods.Runtime.Destroy | internal/agent/local_process.go:71-107 | whatever the others do between its statements: nil and NotFound mean the entry is not in the map, ErrRuntime means Kill failed, the entry still is there and its channel is open; a call without an answer is blocked, on the mutex or after a successful Kill on the open channel |
| LocalProcessMethods.Runtime.Terminate | internal/agent/local_process.go:84-106 | after the lookup: nil with the entry deleted, ErrRuntime with it kept and only after a failed Kill, or blocked |
| LocalProcessMethods.Runtime.Status | internal/agent/local_process.go:110-130 | Running only for a tracked process, Exited only with the code its closed entry holds, NotFound only when it is not in the map; a call without an answer is blocked on the mutex |
| LocalProcessMethods.BlockedIffNoStep | internal/agent/local_process.go:71-130 | a call is blocked, on a taken mutex or an open channel, exactly when the protocol gives it no step |
| LocalProcessMethods.OthersKeepOut | internal/agent/local_process.go:63-65 | while a caller holds the mutex no other step takes it or writes the map |
| LocalProcessRuns.MutualExclusion | internal/agent/local_process.go:63-65 | no two callers are between Lock and Unlock |
| LocalProcessRuns.NoLiveProcessIsOrphaned | internal/agent/local_process.go:51-67 | an identifier Create has returned is in the map unless its process was waited for and its channel closed |
| LocalProcessRuns.OnlyClosedEntriesLeave | internal/agent/local_process.go:84-106 | only a Destroy that has seen the channel closed takes an entry out of the map |
| LocalProcessRuns.RuntimeErrorDeletesNothing | internal/agent/local_process.go:92-98 | a Destroy that answers ErrRuntime leaves its entry in the map |
| LocalProcessRuns.AnswersFit | internal/agent/local_process.go:123-129 | Status never reads an unset ProcessState, and every operation answers in its own terms |
| LocalProcessRuns.StatusIsMonotone | internal/agent/local_process.go:110-130 | over calls that follow one another after Create returned: Running, then Exited with one code, then NotFound, never backwards |
| LocalProcessRuns.GoneForEver | internal/agent/local_process.go:71-130 | once an identifier is gone every later Destroy and Status answers NotFound |
| LocalProcessRuns.DestroyedOnce | internal/agent/local_process.go:71-107 | once one Destroy has returned nil, all made later answer NotFound |
| LocalProcessRuns.NoRuntimeErrorAfterClose | internal/agent/local_process.go:84-99 | after the channel is closed no Destroy answers ErrRuntime |
| LocalProcessRuns.SuccessfulKillReturnsNil | internal/agent/local_process.go:101-106 | in any run a Destroy whose Kill succeeded waits, deletes and returns nil, and never answers ErrRuntime |
| LocalProcessRuns.RuntimeErrorIff | internal/agent/local_process.go:84-99 | a Destroy whose Kill failed answers ErrRuntime exactly when the channel has not been closed before it looks, and otherwise goes on to delete the entry |
| LocalProcessRuns.RuntimeErrorAfterExit | internal/agent/local_process.go:58-99 | a run in which a process has exited, Wait has returned, and a Destroy answers ErrRuntime because the channel is still open |
| LocalProcessRuns.NoStepRaisesDistance | internal/agent/local_process.go:58-61 | no step of anyone takes a channel further from closing |
| LocalProcessRuns.WaitingDestroyIsNotStuck | internal/agent/local_process.go:101-105 | a Destroy that waits after its Kill holds no mutex, and either can go on or a system step brings its channel strictly closer to closing |
| LocalProcessRuns.HolderCanMove | internal/agent/local_process.go:63-65 | whoever holds the mutex can always move |
| LocalProcessRuns.NoDeadlock | internal/agent/local_process.go:71-130 | while a call is under way, some caller can take its next step, or this very call waits for a channel and a system step on its own entry brings that channel strictly closer to closing |

## Left out

- HTTP servers, handlers, request binding and error codes: transport wiring; errors are plain alternatives here.
- SQLite, sqlx and reading the migration files: only per-statement key checks, commit and rollback, comparison of text by bytes and the single connection are modelled. That a failing statement, a cancelled context or a failing commit leaves no trace is the database's promise.
- Runs are never updated in the ledger: no code stores a transition, so the lifecycle and the ledger meet only in the queued state.
- Columns of projects, presets and preset rules that no ledger code reads, deletion with its cascades, artifacts, and the NOT NULL checks that Go's types already imply.
- The formatting of floats: a float carries the literal the library would print, so nothing is said about it being a JSON number (NaN and infinities are not).
- `CanonicalJSON`, `MarshalJSON`, `UnmarshalJSON` and `JSONField`: nothing in the modelled paths calls them.
- Timestamps.ParseOfFormat: an instant is its UTC fields with a four-digit year; month lengths are not checked, and `ParseTime` reads the form `FormatTime` writes, not offsets or comma fractions.
- Uuid.ScanOfPrint: `uuid.Parse` is modelled on the canonical form; its other accepted forms are not. New identifiers are parameters, assumed fresh.
- The difference between nil and empty slices and maps in a spec's meaning: both stand for no elements; the contracts of the copies say which of the two they return.
- GoValues.CopyValue: what a pointer, a typed slice or another reference refers to is one opaque content with an address; its own structure is not modelled. Different referents are assumed to have different addresses where that matters. Cyclic parameters, on which the code would not return, have no meaning in `GoValues.Holds`.
- The service and the repository take drafts and specs as values; what `Isolation` says about sharing is proved for the builder and not again.
- TrainerPresets.NewPhase0Registry: display names and runtime settings (image, entrypoint, environment) are left out; no modelled code reads them, and nothing reads the option policies it does hold.
- `sort.Slice` in `List` is an insertion sort here; only its result matters.
- LocalProcessRuns.WaitingDestroyIsNotStuck: says that a step is always possible and strictly brings the end closer, not that the scheduler ever takes it; fairness is not modelled.
- Go's memory model: every statement on shared data is one atomic step, as the mutex and the channel make them for this code. Errors of `Wait` itself, which would leave `ProcessState` unset, are left out.
- Processes themselves: exit may come at any time with any code, and Kill may fail or succeed whatever the process does.
