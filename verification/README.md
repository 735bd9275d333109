# KACE: configuration transaction, planner, firmware workflow and printer geometry

KACE generates Klipper configurations, edits a live printer's configuration files and drives firmware
installation. This project models the parts of it where a mistake costs a user's settings or a board,
and proves what they promise over every run, every input and every interleaving.

**The configuration transaction** (`Transport`, `IncludeGraph`, `ConfigTransaction`). A remote file store
is edited by others between any two calls; every call may raise before or after it took effect, and the
operator may interrupt at any point. A ghost trace lists what reached the store. `Transport` has the atomic
conditional upload and the transports that refuse it, `IncludeGraph` the worklist that reads the reviewed
baseline, `ConfigTransaction` the run: review, snapshot, conditional uploads with the root file last,
verification, activation, and a rollback that looks but never writes.

**The planner** (`ConfigText`, `TuningCarryOver`, `RootReconcile`, `RootCalibration`, `Replanning`,
`IncludeExpansion`, `PlannedReview`, `IniReconciler`, `CustomProbe`). Configuration text is a sequence of
classified lines. Options are read by the loop the program uses, with continuation lines and merged sections.
On top of it: setting one option, carrying a user's tuning over, deleting section spans, the one managed block
in the user's root file, the settings that Klipper must be able to save, planning again over what was planned,
expanding includes, the strict review of what was planned, adding one INI option, completing a pasted probe
section.

**The durable firmware workflow** (`Checkpoint`, `WorkflowDriver`, `SharedWorkflow`, `McuIdentity`,
`McuMonitor`, `McuVerification`, `FirmwareDeployer`). A ten-state checkpoint under compare-and-swap; the
interactive driver as a machine over persisted checkpoints; any number of drivers over the one file; the
scored identity decision;
the monitor that latches removal and return while events arrive on a second thread; choosing the one device
that may be recorded; the firmware-and-configuration installation as a trace of physical steps and uploads.

**Pins** (`PinAliases`, `PinOwnership`). Incremental flattening of pin aliases against the chains as they
were declared, and the exclusive ownership checks of outputs, probes and scaled ADC circuits.

**Geometry** (`MotionSpace`, `BedGeometry`). Travel, printable and probeable ranges over exact reals, the
homing position, macro positions, leveling points, and the automatic bed mesh.

Where the code does not keep what it seems to promise, the model keeps the code. The members named below give
a concrete input that shows it, or say exactly when the promise holds, or both:

- A run is reported as PRECONDITION_FAILED although files were written when its proposal cannot be preserved
  after an upload, or when the lock of a local destination cannot be released; the latter relabels even a
  committed run (`CommittedRunIsRelabelled`; `ConfigDeploymentTransaction.Run` says exactly when).
- A transition to MCU_VERIFIED accepts evidence recorded before a recompilation (`StaleEvidenceIsAccepted`);
  that each cycle records its own is a property of the driver (`DeployableRuns`, `SharedDeployability`).
- Lines between the managed block and the next section header fall to the last section before the block, and
  are deleted with it when the generated configuration owns that section (`CommentBehindTheBlockIsLost`,
  `LinesBehindTheBlock`).
- "Compile" is offered while a deployment is unresolved, and is then refused (`RecompilingIsRefused`).
- The monitor reads the assessment and the identity of a doubtful board in two steps, so the operator can be
  asked about one board while another one is returned (`TornConfirmation`, `ConfirmedIsReturned`).
- Declaring an alias twice is accepted or refused depending on the order of the other declarations
  (`RepetitionDependsOnOrder`, `RepetitionAccepted`).
- A root whose closing marker comes before the opening one is accepted once and refused ever after
  (`ReversedMarkersBreakTheRoot`, `ExactlyOneBlock`).
- An option line that only continues another option is edited, or taken for the option, in its place
  (`PutIsReadBack`, `ContinuationIsMistaken`, `EnsuredOptions`).
- FAILED_PRECONDITION follows a configuration write when an unexpected error hits the wait for Moonraker after
  its restart, or a rollback (`FailedPreconditionAfterWrite`; `Deployer.Run` says exactly when).
- An installation ends without a terminal event when an interrupt from the keyboard hits the rollback that
  answers an unexpected error; a cancellation there does end in CONFIG_ERROR (`NoTerminalEventAfterWrite`;
  `Deployer.Run` says exactly when).
- The probe check splits a use that is written with whitespace at the colon (`tool : PA1`) into wrong pins, so
  it misses a conflict with a probe on that pin and refuses one on another (`WhitespaceHidesAConflict`,
  `AcceptedProbeIsExclusive`, `ExclusiveProbeIsAccepted`).
- A generated default that does not stand at the first column is overlooked and shadows the value SAVE_CONFIG
  holds (`IndentedDefaultShadowsSaved`; `SavedStaysEffective` says exactly when).
- In the root layout the further lines of a setting that is taken out for a saved value are read as lines of the
  setting before it (`ContinuationOutlivesItsOption`, `TrimKeepsOthers`).
- A heater whose generated section states no control mode takes it from the user once and cannot be planned again
  (`UnstatedControlIsUnstable`; `StabilityCondition` is the exact condition).
- A probe offset written with an equals sign, which Klipper reads, is overlooked and given a second time
  (`EqualsSignIsOverlooked`; `WithMissingOffsets` counts the lines).
- Gantry leveling corners leave the probeable area exactly when one of its axes is shorter than 10 mm
  (`LevelingPointsAreProbeable`).

## Model

| member | source | states |
|---|---|---|
| Transport.ConfigTransport.UploadIfUnchanged | core/config_transaction.py:902-1046 | an upload is applied only where the store held the expected content and the transport can condition the write; it may be applied and still raise |
| Transport.ConfigTransport.ReadFiles | core/config_transaction.py:722-741 | a multi-file read reports, name by name, what the store held at some moment of the read |
| IncludeGraph.ReadConfigState | core/config_transaction.py:66-97 | the baseline has an entry for exactly the fixed candidates and the files that chains of includes reach from the generated texts and the root, as they were read; and those texts hold no include that cannot be reviewed |
| IncludeGraph.Collect | core/config_transaction.py:77-97 | the worklist terminates, with every pending text and all it includes scanned |
| IncludeGraph.VisitText | core/config_transaction.py:80-96 | one text is scanned within the limits of 256 files and 8 MiB, and everything it includes is read or waiting |
| IncludeGraph.ScanText | core/config_transaction.py:85-96 | following every include of one text keeps the worklist invariant and the evidence for what was read |
| IncludeGraph.ClosedReaches | core/config_transaction.py:66-97 | in a closed scan every file at the end of an include chain was read and scanned |
| IncludeGraph.ScannedBound | core/config_transaction.py:80-96 | at most one text per file read, besides the three seeds, so the worklist ends |
| ConfigTransaction.SnapshotRecordsOriginals | core/snapshot.py:81-176 | the snapshot records of every written name exactly its reviewed content or absence |
| ConfigTransaction.VerifySnapshotRestored | core/snapshot.py:271-287 | succeeds exactly when every written name was read with its original content or absence |
| ConfigTransaction.ConfigDeploymentTransaction.Preflight | core/config_transaction.py:430-486 | no write; a plan that is accepted comes with the evidence of its complete baseline, and every change can be conditioned by the transport |
| ConfigTransaction.ConfigDeploymentTransaction.RequireConditionalWrites | core/config_transaction.py:100-113 | refuses a plan exactly for changes that could not be conditioned: any change over Moonraker, the change of an existing file over SFTP or removable media |
| ConfigTransaction.ConfigDeploymentTransaction.UploadOne | core/config_transaction.py:549-557 | one upload, conditioned on the reviewed content and made right after every reviewed file was seen unchanged; it extends the write-set and ordering claims however it ends |
| ConfigTransaction.ConfigDeploymentTransaction.UploadAll | core/config_transaction.py:288-294 | every upload replaces exactly the reviewed content by the planned one, the root goes last, and each attempted name not in the write set was read back as its original |
| ConfigTransaction.ConfigDeploymentTransaction.RecordPossibleWrite | core/config_transaction.py:362-380 | after a failed upload a name is left out of the write set only when it was read back unchanged |
| ConfigTransaction.ConfigDeploymentTransaction.Rollback | core/config_transaction.py:311-360 | issues no write; reports restoration only when every written name was found ours or original, read back as reviewed, the printer restarted on the files if it was to be, and read back once more |
| ConfigTransaction.ConfigDeploymentTransaction.DiagnoseOwnership | core/config_transaction.py:311-338 | a rollback goes on only when every written file was seen with our content or its original |
| ConfigTransaction.ConfigDeploymentTransaction.WaitReady | core/config_transaction.py:253-273 | success only after two consecutive samples of an online Moonraker and a Ready Klipper |
| ConfigTransaction.ConfigDeploymentTransaction.WaitMoonraker | core/config_transaction.py:275-286 | success only after two consecutive online samples |
| ConfigTransaction.ConfigDeploymentTransaction.VerifyPlan | core/config_transaction.py:296-309 | succeeds only after a pass over the files that saw every planned file with its planned content and every other reviewed file as the review found it |
| ConfigTransaction.ConfigDeploymentTransaction.Activate | core/config_transaction.py:582-602 | activation ends with the requested restarts, two Ready samples and no sample of a stopped Klipper, the firmware check, and a last pass that saw every planned file as planned and every other reviewed file as reviewed, in that order |
| ConfigTransaction.ConfigDeploymentTransaction.CommitExisting | core/config_transaction.py:560-573 | an unchanged configuration is committed only on two Ready samples, the firmware and active-configuration checks and the same last pass over planned and reviewed files, without a restart |
| ConfigTransaction.ConfigDeploymentTransaction.RunLocked | core/config_transaction.py:430-635 | every outcome under the lock carries its evidence, and a refused precondition means that no upload was attempted |
| ConfigTransaction.ConfigDeploymentTransaction.Run | core/config_transaction.py:382-421 | over every run with any faults and one interrupt: before the first write the plan was confirmed and validated and every reviewed file was seen three times; COMMITTED and PENDING_ACTIVATION mean that every changed file was uploaded and that a pass then saw each planned file as planned and each other reviewed file as reviewed, COMMITTED also the evidence of the activation; SNAPSHOT_FAILED means no upload, CANCELLED and the failure states nothing written or all restored; PRECONDITION_FAILED after an upload exactly when the error that was met last, on releasing the destination lock or else on preserving the proposal, is an operating-system error or a conflict |
| ConfigTransaction.ConfigDeploymentTransaction.Interrupted | core/config_transaction.py:397-415 | an interrupted run is CANCELLED only when everything it attempted to write is accounted for |
| ConfigTransaction.CommittedRunIsRelabelled | core/config_transaction.py:391-421 | a trace with sound uploads and all the evidence of a commit that leaves the planned root in place; an operating-system error on releasing the destination lock makes it PRECONDITION_FAILED |
| ConfigTransaction.RestoredAfterRollback | core/config_transaction.py:311-360 | a successful rollback accounts for every attempted name, written or not |
| ConfigTransaction.NoLostExternalEdit | core/config_transaction.py:100-131 | with any editor between any two calls, each content the run replaces is the reviewed one, under a condition the transport supports |
| ConfigTransaction.WritesPossible | core/config_transaction.py:702-911 | over Moonraker no call of a run changes a file, and over SFTP or removable media none changes a file that exists |
| ConfigTransaction.StoreDuringUploads | core/config_transaction.py:549-557 | left alone, a changed file holds its plan from its upload on and its reviewed content before |
| ConfigTransaction.CrashConsistency | core/config_transaction.py:288-294 | absent outside edits, whenever the root holds its changed plan every other changed file holds its plan too |
| ConfigText.PutBodyLaw | core/managed_config.py:178-196 | get after put within a section: the option has the new value and no other option changes |
| ConfigText.PutIsReadBack | core/managed_config.py:178-196 | an edit is read back, whatever the value, if and only if the edited line defines the option and nothing after it redefines or continues it |
| ConfigText.ReadOptions | core/managed_config.py:123-146 | the reading loops give the merged options of all sections, the later value counting |
| ConfigText.OptionsAppend | core/managed_config.py:123-146 | the options of two texts joined at a header are the merge of both |
| TuningCarryOver.PutLaw | core/managed_config.py:178-196 | get after put for a whole text: exactly one option of one section changes |
| TuningCarryOver.PutShape | core/managed_config.py:178-196 | the edit leaves all headers in order and all other sections as they are |
| TuningCarryOver.StillSettable | core/managed_config.py:178-216 | setting one option never spoils the place of another |
| TuningCarryOver.ReplaceOrInsertOption | core/managed_config.py:178-196 | the span loop edits the first section of that identity only |
| TuningCarryOver.CarryUserTuning | core/managed_config.py:199-216 | option by option, wherever the generated text lets it be set, on literal conditions: the pid_* values of the extruder and the bed are the user's if and only if the generated control mode folds to pid, an option the user added is carried, a generated one is replaced only if it is a calibration; the same section order, sections the user does not have untouched, and no new line but settings |
| TuningCarryOver.PutBodyElsewhere | core/managed_config.py:178-196 | an option that can be set keeps its value under the edit of another one, even one that lands on a continuation line |
| TuningCarryOver.TuningIsCarried | core/managed_config.py:169-216 | option by option: the user's value where it is carried, the generated one elsewhere |
| TuningCarryOver.TuningIsDecided | core/managed_config.py:169-216 | which value counts, decided for every option by the names, the generated options and the control mode alone |
| TuningCarryOver.CalibrationNames | core/managed_config.py:169-175 | the calibration options of each kind of section, whatever the case of its name |
| RootReconcile.DeleteSpans | core/managed_config.py:229-260 | deleting section spans from the last one back keeps exactly the other sections |
| RootReconcile.StripKeepsSections | core/managed_config.py:229-237 | stripping keeps the lines before the first section and every section not owned, verbatim and in order |
| RootReconcile.SectionsCover | core/managed_config.py:113-120 | the lines before the first section and the sections together are the text |
| RootReconcile.ReconcileRoot | core/managed_config.py:364-441 | the reconciled root, or the refusal of unequal or repeated markers |
| RootReconcile.UserContentSurvives | core/managed_config.py:364-441 | after the block come the user's lines and all sections outside the block that are not owned, verbatim and in order; the root layout moves the Mainsail include lines to the front, and what followed one belongs to the section before it |
| RootReconcile.OutsideIsEverythingElse | core/managed_config.py:375-390 | removing any block keeps the sections before and after it, and in the root layout those the user added inside; lines between the block and the next header come to stand in the last of the sections before them |
| RootReconcile.StripGlue | core/managed_config.py:229-237 | lines behind a text are stripped exactly when the section they come to stand in is |
| RootReconcile.LinesBehindTheBlock | core/managed_config.py:375-395 | lines between the block and the next header survive if and only if the user added sections inside the block, or the section before it is absent or not owned |
| RootReconcile.CommentBehindTheBlockIsLost | core/managed_config.py:375-395 | a concrete root whose comment behind the block is deleted |
| RootReconcile.PlannedRootKeepsUserContent | core/managed_config.py:444-490 | the whole planned root from the existing one: layout mark, Mainsail lines, block, the user's lines and unowned sections in order, the saved text; stale include and layout mark removed |
| RootReconcile.PlannedRootBrings | core/managed_config.py:364-490 | the planned root as a list of parts: what leads it, the block with each generated include that the user lacks, in generated order and number, the generated sections in the root layout, then the user's text and the saved text |
| RootReconcile.GeneratedIncludes | core/managed_config.py:398-424 | each generated include is in the planned root: in front of the user's text and as often as it is generated if the user has none of it, not added otherwise |
| RootReconcile.SectionInsideIsKept | core/managed_config.py:375-395 | a section inside the block survives exactly in the root layout and when KACE did not write it |
| RootReconcile.StaleMacrosAreDropped | core/managed_config.py:457-464 | the include of the old macro file goes exactly when an old file without a block includes what is absent |
| RootReconcile.ExactlyOneBlock | core/managed_config.py:370-395 | the result has exactly one managed block if and only if the markers of the input were in order or stripped; otherwise it is malformed |
| RootReconcile.ReversedMarkersBreakTheRoot | core/managed_config.py:370-390 | a closing marker before the opening one is accepted and leaves a root that is refused next time |
| RootReconcile.ReconcileIsIdempotent | core/managed_config.py:364-441 | reconciling a reconciled root with the same generated configuration changes nothing, in both layouts |
| RootReconcile.SavedTextIsUntouched | core/managed_config.py:449-490 | the text from the SAVE_CONFIG header on is the unchanged suffix of the planned root |
| RootReconcile.PlanRootIsIdempotent | core/managed_config.py:444-490 | planning over a planned root changes nothing, layout marker and stale include removal included |
| RootReconcile.PlannedRootLines | core/managed_config.py:364-490 | every line of the planned root comes from the existing root or the generated text, or is a marker or an own include |
| RootReconcile.PlannedIncludes | core/managed_config.py:398-420 | the planned root has only include lines of the root or of the generated configuration, and those of KACE's own files |
| RootCalibration.RootCalibration | core/managed_config.py:268-310 | the sections are divided from the last one back into what stays in the hardware file and what moves to the root; a saved calibration that does not fit the control mode is refused |
| RootCalibration.Rule.Divide | core/managed_config.py:290-308 | the line loop over one section |
| RootCalibration.TidyDivided | core/managed_config.py:290-308 | in a section with every option at the first column, the kept lines set exactly what does not move, and the moved lines what moves and shadows no saved value |
| RootCalibration.SectionDivides | core/managed_config.py:267-310 | a tidy section: refused exactly when a saved heater calibration does not fit the control mode, otherwise split option by option between the hardware file and the root by the names that Klipper saves |
| RootCalibration.NamesMean | core/managed_config.py:267-290 | the options that Klipper must be able to save, section by section |
| RootCalibration.SavedIsNotSet | core/managed_config.py:268-310 | what SAVE_CONFIG holds and nothing sets, the moved sections never set, and the hardware file sets if and only if a line of it escapes |
| RootCalibration.NothingEscapes | core/managed_config.py:293-304 | no line escapes that stands at the first column under a plain name |
| RootCalibration.IndentedDefaultShadowsSaved | core/managed_config.py:293-304 | a concrete section whose indented default stays over the saved value |
| RootCalibration.TrimSaved | core/managed_config.py:419-428 | the root layout takes the saved settings out section by section |
| RootCalibration.SavedIsTrimmed | core/managed_config.py:419-428 | in the root layout what SAVE_CONFIG holds and nothing sets is set if and only if an indented line of it remains |
| RootCalibration.TrimKeepsOthers | core/managed_config.py:424-427 | taking out settings of one line leaves every other option of the section as it is |
| RootCalibration.ContinuationOutlivesItsOption | core/managed_config.py:424-427 | a concrete section where the further lines of a removed setting change the one before it |
| RootCalibration.PlanIsClean | core/managed_config.py:364-441 | what is derived from the generated text meets all that the reconciliation of the root asks of it |
| RootCalibration.RootSets | core/managed_config.py:415-437 | in a section of its own the planned root sets what the block and the lines right behind it say, whatever else is in the file |
| RootCalibration.SavedStaysEffective | core/managed_config.py:268-437 | a value that SAVE_CONFIG holds and neither file sets is shadowed by neither planned file, but exactly where a line of the option is overlooked |
| Replanning.CarriedIsTuned | core/managed_config.py:199-216 | carrying over both files gives each option of a section the root's value, the hardware file's or the generated one |
| Replanning.StableSection | core/managed_config.py:444-490 | beside an include, planning over its own outcome leaves every option of a section where and as it is, whatever the user and SAVE_CONFIG hold |
| Replanning.UnstatedControlIsUnstable | core/managed_config.py:199-310 | for any heater section without a control mode, files with which a second planning is refused |
| Replanning.StabilityCondition | core/managed_config.py:199-310 | a section is stable for all files if and only if it is no heater or states its control mode |
| Replanning.StableInline | core/managed_config.py:415-430 | in the root layout planning again always leaves every option as it is |
| Replanning.ReplanningKeepsOptions | core/managed_config.py:444-490 | two plannings of the whole files, the second over what the first planned and with its tuning read back: root and hardware file set the same in every generated section |
| IncludeExpansion.ExpansionIsInlining | core/managed_config.py:331-352 | expansion succeeds if and only if every include chain is acyclic, at most 32 deep and ends in a usable file, and the bytes stay below the limit; the result is the in-order inlining |
| IncludeExpansion.InliningIsComplete | core/managed_config.py:337-352 | the depth limit does not show in a result: unfolding deeper gives the same text |
| IncludeExpansion.TameStep | core/managed_config.py:337-352 | the chains from a file on are fine if and only if it is usable and the chains from its includes on are |
| IncludeExpansion.UnreadIsReached | core/managed_config.py:340-343 | "not read" is said only of a file that a chain of includes leads to and that is not there |
| PlannedReview.RootIncludes | core/managed_config.py:444-495 | what the planned root includes is a planned file or was read because the root or a generated text includes it |
| PlannedReview.MoonrakerIncludes | core/managed_config.py:509-525 | Moonraker's planned file includes what the file it replaces includes |
| PlannedReview.UnreadIsConfirmedAbsent | core/managed_config.py:331-352 | a strict review of the artifacts planned from a collected baseline says "not read" only of a file whose absence was confirmed |
| IncludeExpansion.RenderedReadsBack | core/managed_config.py:355-360 | an appended saved value of any number of lines reads back as itself |
| IncludeExpansion.FillSaved | core/managed_config.py:353-361 | saved values are filled in only where no active value exists, and nothing else changes |
| IniReconciler.EnsureSectionAndOption | core/reconciler.py:18-74 | the index loops compute the edit, and report a change exactly when there is one |
| IniReconciler.InsertOnly | core/reconciler.py:18-74 | the edit only inserts lines, at one place |
| IniReconciler.EnsuredOptions | core/reconciler.py:18-74 | every other option of every section is as before; the option is set afterwards unless a matching line was already there, whose reading then counts |
| IniReconciler.EnsuringIsIdempotent | core/reconciler.py:18-74 | doing it again changes nothing |
| IniReconciler.ContinuationIsMistaken | core/reconciler.py:39-53 | a continuation line that looks like the option keeps it from being added |
| CustomProbe.Parse | core/custom_probe.py:167-231 | the parser loop, with the error of each refusal |
| CustomProbe.ParsesExactly | core/custom_probe.py:167-231 | a block parses if and only if its first section is the one primary section, no header is malformed or out of scope, no entry stands before it, and its recognised offsets are given once and as numbers, which are then the result |
| CustomProbe.PrimaryComesFirst | core/custom_probe.py:222-229 | in a block that parses, the first section is the primary one |
| CustomProbe.WithMissingOffsets | core/custom_probe.py:138-164 | fails exactly when a missing X or Y is not supplied; otherwise the block reparses with the same primary section, existing offsets unchanged, missing ones as supplied, and lines only inserted; X and Y then stand once with a colon, besides those with an equals sign |
| CustomProbe.RecognisedOnce | core/custom_probe.py:264-275 | an offset is recognised exactly when the primary section gives it once with a colon |
| CustomProbe.EqualsSignIsOverlooked | core/custom_probe.py:264-275 | a concrete section whose X offset stands with an equals sign and is not recognised |
| Checkpoint.StaleEvidenceIsAccepted | core/firmware_workflow.py:456-498 | after a recompilation the evidence of the previous firmware still suffices |
| Checkpoint.ValidMeans | core/firmware_workflow.py:578-709 | a checkpoint validates exactly when it is intact, names one board and MCU throughout and, in a state that needs firmware, holds a consistent artifact for that MCU |
| Checkpoint.EnteredFrom | core/firmware_workflow.py:72-113 | the states from which each state may be entered |
| Checkpoint.TransitionKeeps | core/firmware_workflow.py:456-498 | a transition changes what it is given, counts up and keeps the rest; MCU_VERIFIED needs a serial and a time |
| Checkpoint.CheckpointFile.Write | core/firmware_workflow.py:501-530 | replaces the file only while it is the expected revision, and only by a checkpoint that validates |
| Checkpoint.CheckpointFile.Discard | core/firmware_workflow.py:194-203 | archives exactly the revision the caller holds, or nothing |
| Checkpoint.CheckpointFile.Load | core/firmware_workflow.py:556-575 | a stored checkpoint is returned only if it validates |
| Checkpoint.StepKeepsInv | core/firmware_workflow.py:456-575 | every action of any process keeps the file valid, the history linear and every holder consistent with it |
| Checkpoint.RunsAreLinear | core/firmware_workflow.py:501-575 | over any interleaving the file validates and the versions of one workflow have strictly increasing sequence numbers |
| Checkpoint.NoRevisionRecurs | core/firmware_workflow.py:183-203 | a revision that was replaced or discarded is never on disk again |
| Checkpoint.OneHolderSucceeds | core/firmware_workflow.py:501-530 | of two holders of one revision, at most one ever writes or discards, whatever happens in between |
| WorkflowDriver.NextKeepsInv | kace.py:300-372 | every decision at every stage keeps the debts of the current cycle paid |
| WorkflowDriver.DeployableRuns | kace.py:592-733 | in any run, whatever is verified, generated, deployable, deploying or complete was built, verified and recorded in its current cycle, generated configuration is for the verified serial, COMPLETE is owed to a deployment that ended well, one that ended badly left READY_TO_DEPLOY; every attempted transition has its decision, and all but one kind are legal |
| WorkflowDriver.DeploymentIsRecorded | kace.py:924-934 | a deployment that ended well is recorded as COMPLETE and one that ended badly as READY_TO_DEPLOY; nothing else is recorded while it is in flight |
| WorkflowDriver.ResumeDecides | kace.py:403-446 | what each choice on resuming persists: an unresolved deployment goes back to READY_TO_DEPLOY, compiling to COMPILE_REQUIRED, verifying to the pause |
| WorkflowDriver.ReviewDecides | kace.py:538-565 | a changed geometry is persisted with the verified board unchanged |
| WorkflowDriver.FirmwareDecides | kace.py:592-672 | only a consistent artifact for the checkpoint's MCU leads to ARTIFACT_READY; every way to fail leaves COMPILE_REQUIRED |
| WorkflowDriver.DeliveryDecides | kace.py:674-707 | only a flash that succeeded leads to verification; the rest waits for a flash |
| WorkflowDriver.VerificationDecides | kace.py:340-372 | a board with a serial and a time is recorded with both; a rejected one waits for a flash again |
| WorkflowDriver.GenerationDecides | kace.py:806-838 | only configuration that names the verified serial moves the checkpoint, one persisted step at a time |
| WorkflowDriver.DeploymentDecides | kace.py:863-915 | a deployment starts exactly from READY_TO_DEPLOY; skipping it persists nothing |
| WorkflowDriver.QuietTakesEffect | core/firmware_workflow.py:456-498 | a legal transition that needs no new evidence always takes effect and keeps the hardware evidence |
| WorkflowDriver.RecompilingIsRefused | kace.py:409-435 | choosing to compile from a resumed workflow is refused exactly from DEPLOYING, and then changes nothing |
| SharedWorkflow.NextMoves | kace.py:300-733 | a decision of the driver makes at most one transition |
| SharedWorkflow.StepIsSimulated | core/firmware_workflow.py:501-575 | each step of any driver over the shared file is a run of the compare-and-swap store |
| SharedWorkflow.SharedRuns | kace.py:163-171 | every interleaving of drivers is a run of the store, every driver keeps its cycle's debts paid, and no two deployments in flight hold one revision |
| SharedWorkflow.SharedDeployability | kace.py:592-733 | over any interleaving of processes, a deployable checkpoint on disk was built, verified and recorded in its current cycle, its configuration is for the verified serial, and a COMPLETE one is owed to a deployment that ended well |
| SharedWorkflow.OneDeploymentIsRecorded | kace.py:163-171 | of two deployments in flight at most one can still record how it ended |
| McuIdentity.MatchIsProof | core/mcu_monitor.py:133-245 | the score threshold accepts exactly: promised VID:PID, no serial conflict, and a strong topology or a weak one with the same serial |
| McuIdentity.MatchIsMonotone | core/mcu_monitor.py:133-245 | a richer reading of a matching board still matches, unless it brings a conflicting serial |
| McuIdentity.VerdictMeans | core/mcu_monitor.py:133-245 | every verdict but the doubtful one by what was read: slot, VID:PID and serial |
| McuIdentity.SlotMeans | core/mcu_monitor.py:81-91 | two readings are of one slot by the best topology evidence that both have, in either order |
| McuMonitor.PresenceMonitor.Receive | core/mcu_monitor.py:475-516 | the latches after any events are those of handling them one by one |
| McuMonitor.PresenceMonitor.WaitForPresent | core/mcu_monitor.py:545-578 | the waiting loop, for every schedule of events between its reads |
| McuMonitor.EventKeepsInv | core/mcu_monitor.py:475-516 | an event latches presence or doubt only after absence |
| McuMonitor.OrderedRemovalAndReturn | core/mcu_monitor.py:442-578 | an identity is returned only if absence was latched first and it was then judged MATCH, or AMBIGUOUS after the operator said yes |
| McuMonitor.RemovalIsLatched | core/mcu_monitor.py:475-516 | absence is latched exactly by a removal in the board's slot, whatever else the reading says |
| McuMonitor.MismatchEndsTheWait | core/mcu_monitor.py:545-578 | a board of another kind that comes back ends the wait with an error |
| McuMonitor.MatchEndsTheWait | core/mcu_monitor.py:545-578 | a proven board that comes back is the one returned |
| McuMonitor.DoubtIsAsked | core/mcu_monitor.py:557-572 | a doubtful board is returned, refused or left undecided by the operator's answer |
| McuMonitor.SilenceGoesOn | core/mcu_monitor.py:573-578 | a wait in which nothing comes back goes on until the operator cancels it or its deadline passes |
| McuMonitor.ConfirmedIsReturned | core/mcu_monitor.py:557-572 | the confirmed board is the returned one exactly when the last doubtful event between the two reads, if any, names it |
| McuMonitor.TornConfirmation | core/mcu_monitor.py:557-572 | a schedule where the operator confirms one board and another one is returned |
| McuVerification.ConsideredMeans | core/firmware_workflow.py:831-896 | the loop's branches admit exactly the proven and the doubtful devices |
| McuVerification.SelectDevice | core/firmware_workflow.py:830-908 | succeeds exactly when one device is proven, or none is and the only doubtful one is confirmed |
| McuVerification.SelectedIsUnique | core/firmware_workflow.py:897-903 | at most one device can be selected |
| McuVerification.VerifyReappeared | core/firmware_workflow.py:793-925 | succeeds exactly from the two verifying states with flash evidence and a selected device, and records its stable path and the time in a valid MCU_VERIFIED checkpoint |
| McuVerification.NeverMismatchedOrTransient | core/firmware_workflow.py:880-908 | no device judged MISMATCH or TRANSIENT is ever selected |
| McuVerification.UnattendedNeedsProof | core/firmware_workflow.py:880-908 | without the operator only a recorded baseline, shared topology, expected VID:PID, no conflicting serial and a score of 90 suffice |
| FirmwareDeployer.Deployer.Emit | core/moonraker_deployer.py:275-287 | each event has the next number, and none follows a terminal one |
| FirmwareDeployer.Deployer.ConfirmRemoval | core/moonraker_deployer.py:570-608 | power is cut only after a yes to the power-cycle prompt; a refusal or a missing prompt ends the run |
| FirmwareDeployer.Deployer.ConfirmMedia | core/moonraker_deployer.py:615-632 | with a relay, the medium is confirmed after removal was observed |
| FirmwareDeployer.Deployer.Publish | core/moonraker_deployer.py:702-730 | no upload before the firmware check and the final look, which has written nothing when it fails; when the run goes on every planned file was uploaded |
| FirmwareDeployer.RestoreSnapshot | core/snapshot.py:290-345 | with expected files it only compares; on request it restores every file of the snapshot, the root last, and removes the others |
| FirmwareDeployer.RestoreAll | core/snapshot.py:345-380 | the two loops of a requested restoration |
| FirmwareDeployer.Deployer.Rollback | core/moonraker_deployer.py:417-457 | writes nothing; reports success only after the attempted files were compared, Moonraker and Klipper brought back as the backup needs and the files compared again before and after |
| FirmwareDeployer.Deployer.Recheck | core/moonraker_deployer.py:765-779 | DONE only after the restart, the waits, and the firmware and the uploads verified again |
| FirmwareDeployer.Deployer.Run | core/moonraker_deployer.py:459-815 | every trace is safe, state by state and call by call; the end is the one that the last outcome, answer or check calls for; DONE is validated after restart, CANCELLED left nothing behind; FAILED_PRECONDITION follows a write exactly when an unexpected error comes in a state without a rollback; the one terminal event ends the trace, except exactly when a keyboard interrupt hits the rollback after an unexpected error; answering a fault writes nothing |
| FirmwareDeployer.OutcomeDecides | core/moonraker_deployer.py:519-552 | after an outcome of the firmware action other than a prepared medium or a flashed board the next thing is its terminal event: FAILED ends in FAILED_FLASH, CANCELLED in CANCELLED, anything else in FAILED_PRECONDITION, and nothing is powered, written or told afterwards |
| FirmwareDeployer.OutcomeIsReported | core/moonraker_deployer.py:519-552 | such a run never reports another end |
| FirmwareDeployer.WritesAreEarned | core/moonraker_deployer.py:480-730 | every write comes after the publication check, a prepared medium or a flashed board if firmware was to be installed, the removal and return of a watched board, the verified firmware and the final check, directly after its file was found as in the backup, and the root last |
| FirmwareDeployer.RefusalsDecide | core/moonraker_deployer.py:570-779 | a refused prompt, a wait that ran out, other firmware, other uploads or a changed file is acted on at once, by the end or the rollback that it calls for |
| FirmwareDeployer.NothingAfterTheEnd | core/moonraker_deployer.py:275-293 | after a terminal event nothing is done or told |
| FirmwareDeployer.Deployer.Recover | core/moonraker_deployer.py:780-808 | the answer to each fault: after an interrupt or a cancellation every error of the rollback is caught, after an unexpected error all but a keyboard interrupt; each answer ends in the state of its fault |
| FirmwareDeployer.FailedPreconditionAfterWrite | core/moonraker_deployer.py:736-808 | a safe trace of FAILED_PRECONDITION with a written file not seen restored |
| FirmwareDeployer.NoTerminalEventAfterWrite | core/moonraker_deployer.py:797-808 | a safe trace with a write and no terminal event |
| FirmwareDeployer.EventsAreNumbered | core/moonraker_deployer.py:275-293 | event numbers are contiguous and nothing is told after the terminal event |
| FirmwareDeployer.SafeMeans | core/moonraker_deployer.py:570-730 | in a safe trace power-off directly follows a yes to its prompt, power is switched only with a prepared medium, power-on follows removal and a confirmed medium, and no file is restored |
| PinAliases.FlatteningFollowsChains | core/pin_validator.py:163-243 | the declarations are accepted if and only if they declare no cycle, and the table sends each alias to the end of its declared chain |
| PinAliases.OneStepResolution | core/pin_validator.py:207-243 | no alias target is an alias itself |
| PinAliases.OrderDoesNotMatter | core/pin_validator.py:207-226 | two orders of the same declarations are accepted alike and resolve alike |
| PinAliases.RepetitionDependsOnOrder | core/pin_validator.py:207-226 | a repeated declaration passes in one order and is refused in another |
| PinAliases.RepetitionAccepted | core/pin_validator.py:207-226 | a repeated declaration passes exactly while its target is where the alias ends |
| PinAliases.ResolutionIsChainEnd | core/pin_validator.py:228-243 | resolving a name is following its declared chain to the end |
| PinAliases.ResolvesToChainEnd | core/pin_validator.py:228-243 | resolving a token gives the end of its declared chain on its MCU, or on the reference MCU of a scaled provider, and fails exactly when that end is reserved |
| PinAliases.DeclarationForms | core/pin_validator.py:207-217 | which targets reserve a position and which are refused, character by character |
| PinAliases.Resolver.Add | core/pin_validator.py:207-226 | one declaration changes one MCU's table as specified, or nothing |
| PinAliases.Resolver.AddAll | core/pin_validator.py:172-205 | all declarations of one MCU, up to the first refused one |
| PinOwnership.ClaimAll | core/board_auxiliary.py:113-146 | claims succeed exactly when every pin is free of firmware and claimed once |
| PinOwnership.ScanOthers | core/board_auxiliary.py:133-146 | the scan passes exactly when every token it reads of the other uses resolves to a pin nobody owns |
| PinOwnership.ValidateExclusiveOutputs | core/board_auxiliary.py:113-146 | accepts exactly the outputs that are exclusively owned on declared MCUs |
| PinOwnership.ExclusiveOutputsMean | core/board_auxiliary.py:113-146 | exclusive outputs, pair by pair: free, distinct, and met by no use of another section |
| PinOwnership.ValidateProbePins | core/pin_validator.py:355-397 | accepts exactly the probe pins that no piece of another section's uses stands for |
| PinOwnership.AcceptedProbeIsExclusive | core/pin_validator.py:382-395 | accepted probe pins are exclusively owned if and only if no use with whitespace at the colon that is misread stands for one |
| PinOwnership.ExclusiveProbeIsAccepted | core/pin_validator.py:382-395 | exclusively owned probe pins are accepted if and only if no piece of a use with whitespace at the colon stands for one |
| PinOwnership.WhitespaceHidesAConflict | core/pin_validator.py:382-395 | a concrete use that shares the probe's pin and passes, and keeps off a pin it does not use |
| PinOwnership.PiecesAreWords | core/pin_validator.py:382-395 | the probe check reads each word of a use as a pin of its own |
| PinOwnership.ValidateAdcScaled | core/adc_scaled.py:48-147 | accepts exactly the circuits on one declared MCU each, defined before their thermal sensors, with exclusively owned pins |
| PinOwnership.AdcAcceptsExactly | core/adc_scaled.py:48-147 | acceptance in terms of the circuits and sensors: named circuits with two free reference pins on one MCU, thermal sensors defined later and reading free pins apart from all others, and every other field harmless |
| PinOwnership.ProtectedMeans | core/adc_scaled.py:72-147 | protected are the two reference pins of every circuit and every reading through one, and nothing else |
| PinOwnership.AdcAcceptanceIsExclusive | core/adc_scaled.py:72-147 | after acceptance no protected pin is reserved, shared with another one, or used by any other field |
| PinOwnership.OwnedChainsNeverMeet | core/pin_validator.py:355-397 | the declared alias chain of an exclusively owned name never meets that of another owned or scanned one, scaled providers read in their reference MCU's table |
| PinOwnership.AdcChainsNeverMeet | core/adc_scaled.py:72-147 | after acceptance the chain of a reference pin or a scaled reading meets that of no other protected use and of no use of another field |
| MotionSpace.DeriveAxis | core/motion_model.py:52-86 | derived printable limits keep their width and end inside the travel exactly when they fit |
| MotionSpace.ValidateAxis | core/capabilities.py:217-288 | accepts exactly the bounded, ordered limits whose printable range lies in the travel |
| MotionSpace.ValidateHeight | core/capabilities.py:217-288 | accepts exactly the bounded Z limits with a positive printable height inside the travel |
| MotionSpace.BuildValidated | core/generator.py:305-317 | validated answers build a motion space with sound axes, the ranges that were checked |
| MotionSpace.ChecksWhatIsDerived | core/motion_model.py:32-86 | the validated printable range is the derived one, unless neither the size nor a printable limit is answered but a travel limit is |
| MotionSpace.StarterMacros | core/generator.py:305-317 | answers that pass the validation yield macro positions in the travel that was answered, parking on the printable area |
| MotionSpace.PrinterMotionSpace.ProbeableMeansReachable | core/motion_model.py:136-189 | a printable tip position is probeable if and only if the nozzle can put the tip there |
| MotionSpace.PrinterMotionSpace.NozzleRangeIsShiftedArea | core/motion_model.py:150-189 | the nozzle range for probing is the probeable area shifted by minus the offset |
| MotionSpace.PrinterMotionSpace.SafeZHome | core/motion_model.py:191-218 | fails exactly when nothing can be probed; otherwise in travel with the tip over the middle |
| MotionSpace.PrinterMotionSpace.StarterMacroPositions | core/motion_model.py:220-234 | the centre and the park margins as exact numbers, and a clearance between the bottom of the travel and the printable height; all positions lie in travel, parking on the printable area |
| BedGeometry.DeriveProbingPoints | core/leveling.py:55-88 | clamped points lie in the probeable area when the margin fits |
| BedGeometry.ClampIsNearest | core/leveling.py:76-82 | a clamped coordinate is the nearest one inside the margins |
| BedGeometry.FilterReachablePoints | core/leveling.py:42-53 | the filter keeps the reachable points in order |
| BedGeometry.ReachableIsProbed | core/leveling.py:13-53 | the kept points are exactly those the nozzle can probe |
| BedGeometry.DerivedPointsAreReachable | core/leveling.py:13-88 | derived points all pass the filter |
| BedGeometry.LevelingPointsAreProbeable | core/leveling.py:91-151 | the corners are probeable if and only if both axes are at least 10 mm; then all points are in nozzle travel |
| BedGeometry.LevelingPointsInTravel | core/leveling.py:91-151 | the corners are in travel if and only if 10 mm from each end is within the probe's reach |
| BedGeometry.LevelingPointsArePlaced | core/leveling.py:91-151 | where the tip probes: 10 mm inside the probeable area, on its middle line for two motors, in a triangle for three, at the four corners from four on |
| BedGeometry.MeshBounds | core/bed_mesh.py:158-178 | bounds strictly ordered inside the probeable range, with a margin of 10, 2 or 0 mm by its width |
| BedGeometry.SpacingIsOneMillimetre | core/bed_mesh.py:59-70 | the rounded spacing rule asks for exactly one millimetre per step |
| BedGeometry.AutomaticMesh | core/bed_mesh.py:180-226 | the automatic counts by width, four points where seven on the other axis would leave three, and the algorithm that the interpolation rules always accept |
| BedGeometry.InterpolationMeans | core/bed_mesh.py:27-77 | counts and a chosen algorithm are refused exactly below three points, or beyond six where Lagrange would have to interpolate |
| BedGeometry.GenerateMesh | core/bed_mesh.py:115-302 | the automatic mesh lies in the probeable area, in reach of the nozzle, with at least one millimetre between points; 12 mm always suffice |

## Left out

- ConfigTransaction.ConfigDeploymentTransaction.Run: which of UPLOAD_FAILED, VERIFY_FAILED and ACTIVATION_FAILED is reported is decided by message text and not modelled; one state stands for the three.
- ConfigTransaction.ConfigDeploymentTransaction.UploadAll: the order among files other than the root is arbitrary here, the code sorts them.
- ConfigTransaction.NoLostExternalEdit: writers that do not take the local lock can defeat the local compare-and-swap between its check and its rename; the conditional write is taken as atomic.
- IncludeGraph.ReadConfigState: which lines are includes, and the refusal of unsafe paths, is a parameter.
- TuningCarryOver.PutLaw: an edited line whose old value is empty is outside the model, since the pattern then takes the value from the next line.
- TuningCarryOver.CarryUserTuning: options are taken in any order, so the order of inserted lines is not fixed; nothing is claimed of a section into which a value of several lines, or an empty one, is carried.
- RootReconcile.UserContentSurvives: blank lines between lines are not modelled (the code may move or drop them next to headers).
- RootReconcile.OutsideIsEverythingElse: include names are compared without case throughout; for includes inside the block the code compares the text as written.
- RootReconcile.ExactlyOneBlock: marker text inside other lines is not modelled.
- RootReconcile.PlanRootIsIdempotent: for the same generated text and the same layout; the wizard's data behind them is not modelled.
- RootCalibration.SavedStaysEffective: option names are taken as folded, where the code folds them in one layout only; it does not say what a setting of the user between the block and the next section does to the last generated section, which `RootCalibration.RootSets` does; what other included files set is not modelled.
- Replanning.ReplanningKeepsOptions: added options may come in another order, so the texts are compared by what they set; for sections that occur once and are written with every option at the first column.
- PlannedReview.UnreadIsConfirmedAbsent: decoding a file and resolving an include path are parameters; the generated configuration is taken to have its includes as sections of their own, written as the planner writes them.
- IniReconciler.EnsuredOptions: comments after a header and the choice of line ending are not modelled.
- WorkflowDriver.DeployableRuns: a board-contract proof and a pending legacy deployment are taken as exclusive, as the firmware wizard sets them; the geometry review after a manual flash in the firmware phase is a harmless extra choice.
- SharedWorkflow.SharedRuns: a process whose part is over may go on from the revision it holds without reading the file again, which the code does not do; a corrupt file, and what happens on the printer while two deployments are in flight, are not modelled.
- McuMonitor.ConfirmedIsReturned: one event is handled as a whole; the event thread's own two stores could be torn in the same way.
- McuVerification.VerifyReappeared: identifiers are taken as lower case, MCU model aliases and the set of bridge adapters as given, the clock as positive.
- FirmwareDeployer.Deployer.Run: a wait is one item of the trace, and the two consecutive Ready samples inside it are not shown here (they are in the configuration transaction); the event sink is taken not to raise, interrupts hit calls and not plain statements, nothing is claimed about restoration after TIMEOUT, which returns without a rollback.
- PinOwnership.ValidateAdcScaled: the scalar checks of circuits, and the token syntax of pins besides whitespace at the colon, are left out.
- MotionSpace.PrinterMotionSpace.StarterMacroPositions: formatting of numbers is left out here and in the mesh; the final check of formatted mesh bounds is not modelled.
- MotionSpace.ValidateAxis: endstops and non-geometric rules are left out.
- BedGeometry.AutomaticMesh: counts and algorithms selected by a printer profile are validated by the same rules but not derived here; the circular mesh, tension and clearance checks are left out.
- Digests and identifiers: SHA-256 is an injective constructor and workflow identifiers are fresh numbers.
- The restart after a restoration on the operator's request, the warnings about replaced settings, and the atomic replacement of local files.
- HTTP, SFTP, udev, subprocess and file-system mechanics, lock files, menus, prompts, translations, dashboards and terminal rendering.
- Firmware builds, image transformation and board catalogues: an artifact is consistent or not.
