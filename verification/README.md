# MintClaw: verified core protocols

A Dafny model of the parts of MintClaw whose correctness is hardest to see from the code, with proofs of what they
promise. `dafny verify dfyconfig.toml` checks all of it. One module per component:

| module | component |
|---|---|
| `ActiveTool`, `Isolation` | the barrier fixture that holds tool calls, and its logical clock as evidence that one call enclosed another |
| `UnitFiles`, `Systemd`, `Launchd`, `Lock` | the node service transactions: publish, verify, quarantine, re-verify, unlink, and every rollback; and the lock between them |
| `UnitText`, `LaunchdJob` | the texts they depend on: unit rendering and quoting, the [Install] check, the job listing |
| `Browser` | serial browser trials, routed requests, the append-only witness and its oracle |
| `OwnedGateway`, `Generations` | succession of owned gateway processes, and the budget that shrinks along the chain |
| `NativeModels`, `NativeTrace`, `NativeBinding` | model-call evidence: totals, the trace recogniser, its validator, and the selection |
| `Delivery`, `DeliveryWire` | the streaming-revision recogniser and the wire recorder |
| `Conversation` | the bounded turn engine |
| `Json` | the strict JSON reader |
| `Bench` | two-level benchmark aggregation |
| `Text`, `Options`, `Verdicts` | shared definitions |

Concurrent components are step systems over a value, on which the theorems about all runs are proved, with a class
beside each whose methods are proved to follow its steps. Transactions are classes whose methods let arbitrary
interference happen between any two of their own steps (`Foreign`, `Interfere`, `Interleave`).

## Assumptions

- SHA-256 is injective where a lemma says so (`hash` is a parameter); elsewhere digests are compared as strings.
- Names that contain a random transaction identity are touched only by their own transaction, and identities do not
  repeat. Inode numbers are not reused within a transaction.
- `quiet` means that nobody but the transaction changes directory or service manager; `reliable` means that system
  calls, queries and commands issued to undo something succeed; `smooth` means that nothing fails at all. What is
  stated without them holds under arbitrary interference and failure. Commands that fail may take partial effect.
- launchd may accept an unload that takes effect at once, at some later time, or only after the transaction
  (`Launchd.Unloading`), and no earlier unload is pending when a transaction starts. An unload that is not accepted may
  take effect at any of these times too, or never. systemd has finished stopping when its command succeeds.
- `helpful` means that the transport takes every input and answers at once with a final over the trial's route.
- A service left alone changes its activity only while it is being started (systemd) or keeps running or not (launchd).
  systemd reports a pending reload exactly when the file it loaded is not the one at the unit path.
- Floating-point numbers are reals. Integers are unbounded except where 64-bit arithmetic decides a branch
  (`NativeModels.Wrap64`). Strings are sequences of characters, and limits on bytes are limits on characters.
- Timeouts and contexts are a possible cancellation at any step. Random identities, transports, stores, user models,
  domain observers and the private-data scanners are arbitrary: they may return anything.

## Results worth knowing

- `NativeBinding`: counting and matching alone do not make a selection one-to-one. A repeated binding is accepted
  beside an unmatched turn; correspondence holds exactly when binding digests are distinct, which bindings
  recomputed from distinct trials guarantee (`SelectForTrials`).
- `OwnedGateway`: "unforced" can be claimed of a predecessor only at the moment it is re-examined after winning the
  one-shot flag. A stop whose time has run out may mark the exited child forced later.
- `LaunchdJob`: a job listing may spread path and state over several first-level blocks; `n = {`, `path = /p`, `}`,
  `x = {`, `state = up`, `}` is one job. It says what the service's own block says exactly when no other first-level
  block opens before both values are given.
- `Lock`: the lock is per file, not per name. Two processes with the lock file open can come to hold it both exactly
  when the file was removed between their openings.
- `Systemd`: an uninstall whose final directory sync fails reports an error although the service is gone; every other
  error restores the service. `Launchd` behaves alike where unloads take effect at once.
- `Launchd`: where an accepted unload takes its time, an uninstall that still sees the job listed reports an error,
  keeps the plist, and loses the job later. After an accepted unload the job remains exactly when a rollback
  bootstrapped it. An install that is undone then leaves its plist behind.

## Model

| member | source | states |
|---|---|---|
| `ActiveTool.EveryRunKeepsInv` | internal/eval/active_tool_fixture.go:130-274 | after any interleaving of register, enter, settle, leave, release, listener failure and shutdown: the nonzero stamps are exactly 1 to the counter, each borne once; entered precedes release precedes settled; the flight count is the number of active barriers and at most 2; each channel was closed at most once, exactly when its stamp was issued |
| `ActiveTool.RunIsMonotone` | internal/eval/active_tool_fixture.go:145-230 | between two moments of one run stamps once set never change, and stamps set in between are larger than the earlier counter |
| `ActiveTool.StampIssued` | internal/eval/active_tool_fixture.go:157-181 | every stamp of a final state was issued by one identifiable step, before which the counter stood just below it |
| `ActiveTool.ShutdownFreezes` | internal/eval/active_tool_fixture.go:242-274 | once shutdown has begun, in every continuation nothing registers, enters or is released, and a barrier changes only from active to closed |
| `ActiveTool.ShutdownDrains` | internal/eval/active_tool_fixture.go:242-274 | any continuation that schedules each held call once leaves nothing in flight, whatever else runs |
| `ActiveTool.ShutdownClosesHeldCalls` | internal/eval/active_tool_fixture.go:165-189 | every call held when shutdown began ends settled in state closed |
| `ActiveTool.WaitReturnsWhenDrained` | internal/eval/active_tool_fixture.go:160-163 | when the worker count shutdown waits for is zero, no barrier is active |
| `ActiveTool.SequenceBounded` | internal/eval/active_tool_fixture.go:130-230 | the counter never exceeds three stamps for each of the at most 128 barriers, so it cannot wrap |
| `ActiveTool.Uncancelled` | internal/eval/active_tool_fixture.go:173-187 | an active call carries no cancellation code, so settling writes it at most once |
| `ActiveTool.Fixture.Register` | internal/eval/active_tool_fixture.go:130-143 | registers exactly when identifiers and slot are valid, the fixture is neither closed nor failed, the limit is not reached and the key is new; the fields follow the step system |
| `ActiveTool.Fixture.Enter` | internal/eval/active_tool_fixture.go:145-163 | admits exactly a registered call of a live context while fewer than two are in flight; the fields follow the step system |
| `ActiveTool.Fixture.Settle` | internal/eval/active_tool_fixture.go:165-196 | settles with the released, canceled or closed state the code picks, and succeeds exactly for released |
| `ActiveTool.Fixture.Release` | internal/eval/active_tool_fixture.go:218-230 | releases exactly an active, not yet released barrier of an open, healthy fixture |
| `ActiveTool.Fixture.Leave` | internal/eval/active_tool_fixture.go:160-163 | a worker leaves only after its call settled |
| `ActiveTool.Fixture.Fail` | internal/eval/active_tool_fixture.go:119-126 | a dying listener marks the fixture failed as one step |
| `ActiveTool.Fixture.Shutdown` | internal/eval/active_tool_fixture.go:242-247 | the closing section runs its effect once |
| `ActiveTool.Fixture.Snapshot` | internal/eval/active_tool_fixture.go:232-240 | yields the observation of a known barrier unless the fixture failed |
| `ActiveTool.Fixture.WaitEntered` | internal/eval/active_tool_fixture.go:198-216 | success means the call is active and the context live; it is guaranteed when the call is active, the context live and the fixture neither closed nor failed |
| `Isolation.NestedStampsEnclose` | internal/eval/isolation_validate.go:32-37 | if A entered before B and B settled before A was released, then at every moment of the run at which B was active, A was active and not released |
| `Isolation.EnclosureNestsStamps` | internal/eval/isolation_validate.go:32-37 | conversely, enclosure over the whole run forces the two stamp comparisons |
| `Isolation.PhaseAtMoment` | internal/eval/isolation_validate.go:32-37 | when a barrier is active, and when it is held, is read off its final stamps alone |
| `Isolation.SettledIsFinal` | internal/eval/active_tool_fixture.go:173-189 | the stamps of a settled barrier never change again, so evidence captured early stays valid |
| `Isolation.LiveOrderNests` | internal/eval/isolation_conversation.go:43-72 | waiting for A, running B afterwards, re-checking that A is unreleased after B settled, and only then releasing A yields nested stamps and enclosure |
| `Isolation.AfterSend` | internal/eval/isolation_conversation.go:43-72 | whatever other goroutines do between its steps, success returns two released observations whose stamps are nested and a run in which A enclosed B |
| `Isolation.RunPeer` | internal/eval/isolation_conversation.go:43-60 | the peer call is registered only after A entered, and its released observation is captured from the live fixture |
| `Isolation.RecheckAndRelease` | internal/eval/isolation_conversation.go:60-72 | A is released only if it was still unreleased at the re-check, and its released observation is captured |
| `Isolation.Interleave` | internal/eval/active_tool_fixture.go:130-274 | any script of foreign steps leaves the fixture a run of the step system extending the earlier one |
| `Json.ReadsAcceptable` | internal/eval/json.go:50-103 | the tokens of a document whose nesting is at most 24 below the given depth, with distinct member names and nulls only where allowed, are read back as its value and consumed exactly |
| `Json.AcceptsOnlyAcceptable` | internal/eval/json.go:50-103 | whatever the reader accepts is the tokens of such a document followed by the unread rest |
| `Json.TokensUnambiguous` | internal/eval/json.go:50-103 | a token stream starts with at most one document |
| `Json.ReadsExactlyAcceptable` | internal/eval/json.go:50-103 | on the tokens of any document the reader returns its value exactly when the document is acceptable, else an error |
| `Json.DecodeValue` | internal/eval/json.go:46-103 | the recursive, position-advancing reader computes the specified reading and terminates |
| `Json.Decoder.Next` | internal/eval/json.go:54-57 | yields the next token and advances by one |
| `Json.Decoder.More` | internal/eval/json.go:66-88 | tells whether the open container has another element |
| `Json.DecodeDocument` | internal/eval/json.go:19-30 | accepts exactly a bounded, well-encoded input that is one whole acceptable document, so trailing tokens are refused, and yields its value |
| `Delivery.AcceptsExactlyTwoTurns` | internal/eval/final_delivery_validate.go:115-168 | the recogniser accepts an event list exactly when it splits into two turns of one input, one create, updates and one final, with fresh request, message and turn identities and the streaming rule, and then names their finals |
| `Delivery.GoingTracks` | internal/eval/final_delivery_validate.go:115-168 | a prefix that is not rejected is a prefix of such turns, and the registers summarise it |
| `Delivery.ShapeGoes` | internal/eval/final_delivery_validate.go:115-168 | no prefix of two such turns is rejected |
| `Delivery.TakeInput` | internal/eval/final_delivery_validate.go:121-131 | an input is taken or refused exactly as the automaton says, with the same code |
| `Delivery.TakeRevision` | internal/eval/final_delivery_validate.go:133-162 | a revision is taken or refused exactly as the automaton says, with the same code |
| `Delivery.FinalDeliveryRevisions` | internal/eval/final_delivery_validate.go:115-168 | the loop computes the automaton verdict, and the finals exactly on acceptance |
| `DeliveryWire.FinalDeliveryWire.Register` | internal/eval/final_delivery_wire.go:38-48 | takes at most two distinct valid requests of the session, and records a failure otherwise |
| `DeliveryWire.FinalDeliveryWire.Observe` | internal/eval/final_delivery_wire.go:50-66 | succeeds exactly for frames that are of no concern, for readable non-finals of no registered request, and for registered requests within limits and scope; the whole record after it is stated, with the code of each refusal |
| `DeliveryWire.FinalDeliveryWire.ObserveOwned` | internal/eval/final_delivery_wire.go:67-84 | succeeds exactly within both limits, in scope and after no earlier failure; it is metered in any case, and then refused by limits, refused by scope, or kept unless auxiliary |
| `DeliveryWire.FinalDeliveryWire.Snapshot` | internal/eval/final_delivery_wire.go:87-101 | claims completeness exactly for a closed, failure-free record of two requests |
| `DeliveryWire.FailureSticks` | internal/eval/final_delivery_wire.go:38-101 | once a failure is recorded, no later snapshot claims completeness |
| `DeliveryWire.FinalDeliveryWireCode` | internal/eval/final_delivery_wire.go:103-162 | accepts exactly the records that agree with the transcript: bound requests, regrouped frames that are two whole turns, and finals equal to the transcript ones |
| `DeliveryWire.AcceptedRecordPartitions` | internal/eval/final_delivery_wire.go:131-148 | in an accepted record every frame belongs to exactly one of the two turns, and regrouping neither loses nor repeats one |
| `DeliveryWire.InputsOpenTurns` | internal/eval/final_delivery_validate.go:115-168 | in two whole turns the only inputs are the first event and the one at the cut, which has a fresh request |
| `DeliveryWire.CollectFrames` | internal/eval/final_delivery_wire.go:136-144 | collects the frames of one request in order, all of the session |
| `DeliveryWire.InputsAndFinals` | internal/eval/final_delivery_wire.go:116-124 | separates the inputs and the finals of the transcript |
| `DeliveryWire.Regroup` | internal/eval/final_delivery_wire.go:128-148 | puts the frames behind the inputs they answer, and refuses when some frame answers none |
| `Bench.ModeIsHomomorphic` | cmd/membench/eval.go:207-343 | over exact reals, aggregating per sample and then over the mode equals aggregating all questions at once, in every overall field and every category, for any split, including empty samples and samples without scores |
| `Bench.AggregateRepresents` | cmd/membench/eval.go:207-266 | the metrics retain all sums and counts of the questions |
| `Bench.AggregateMetrics` | cmd/membench/eval.go:207-266 | the accumulator loop computes means over scored questions, hit rates over all, and the per-category metrics |
| `Bench.ComputeModeAgg` | cmd/membench/eval.go:307-343 | the weighted accumulation over samples computes the weighted means it stands for |
| `Bench.Accumulate` | cmd/membench/eval.go:214-236 | the running sums and category table are those of the questions read |
| `Bench.SumSamples` | cmd/membench/eval.go:309-327 | the running sums over samples are the weighted sums, overall and per category |
| `Bench.AddSample` | cmd/membench/eval.go:315-326 | one sample adds its weighted metrics to each of its categories, in whatever order the map yields them |
| `Bench.AverageAll` | cmd/membench/eval.go:334-341 | the in-place division turns every category sum into a mean, or zero without counts |
| `UnitText.SequentialIsOnePass` | cmd/mintclaw-node/lifecycle_linux_install.go:719-729 | the four sequential replacements equal one pass over the characters |
| `UnitText.ReadsEscaped` | cmd/mintclaw-node/lifecycle_linux_install.go:719-729 | the escaping has an inverse that also finds the closing quote |
| `UnitText.QuotedIsPrefixFree` | cmd/mintclaw-node/lifecycle_linux_install.go:719-729 | a quoted argument followed by anything determines the argument |
| `UnitText.QuotingIsInjective` | cmd/mintclaw-node/lifecycle_linux_install.go:719-729 | distinct paths never render alike |
| `UnitText.CheckInstallSection` | cmd/mintclaw-node/lifecycle_linux_uninstall.go:220-246 | the flag-carrying line scan accepts exactly one [Install] section with exactly one directive, the wanted one |
| `UnitText.ValidateManagedSystemdInstallSection` | cmd/mintclaw-node/lifecycle_linux_uninstall.go:214-247 | accepts exactly the units that install only into the target of the scope |
| `UnitText.RenderedUnitIsManaged` | cmd/mintclaw-node/lifecycle_linux_install.go:659-717 | every rendered unit carries the ownership marker line, is accepted for its own scope and refused for the other |
| `UnitText.RenderedLines` | cmd/mintclaw-node/lifecycle_linux_install.go:659-717 | no rendered field smuggles in a line: splitting the text gives back exactly the rendered lines |
| `UnitText.RenderingIsInjective` | cmd/mintclaw-node/lifecycle_linux_install.go:659-717 | two requests rendered alike in one scope and mode run the same program on the same argument under the same names |
| `UnitFiles.Directory.Publish` | cmd/mintclaw-node/lifecycle_linux_install.go:477-541 | publishes under a free name by link; only the file made here is ever unlinked, by its temporary name, and nothing is replaced, whatever others do; alone in the directory, failure leaves every visible name and content, and where nothing fails a free name is published |
| `UnitFiles.Directory.Stage` | cmd/mintclaw-node/lifecycle_linux_install.go:488-529 | creates, fills and links a private file; the service name stands for it exactly on success |
| `UnitFiles.Directory.Quarantine` | cmd/mintclaw-node/lifecycle_linux_install.go:588-625 | moves the file at the service name aside without replacing, keeps it only if inode and content are the published ones, and otherwise leaves the inode it moved under one of the two names |
| `UnitFiles.Directory.Restore` | cmd/mintclaw-node/lifecycle_linux_uninstall.go:312-331 | puts a verified quarantined file back without replacing |
| `UnitFiles.Directory.Remove` | cmd/mintclaw-node/lifecycle_linux_install.go:637-649 | under any interference, unlinks only by the private quarantine name, and only right after that name was read and showed the expected inode and content; a failed removal unlinks nothing |
| `UnitFiles.Directory.Matches` | cmd/mintclaw-node/lifecycle_linux_install.go:543-575 | ownership is claimed only if the file read under the name has the expected inode and content, and the reading is on record |
| `UnitFiles.Directory.RenameNoReplace` | cmd/mintclaw-node/lifecycle_linux_install.go:627-635 | never replaces an entry; on failure nothing moved |
| `UnitFiles.Directory.Link` | cmd/mintclaw-node/lifecycle_linux_install.go:521-529 | never replaces an entry |
| `UnitFiles.Directory.Cleanup` | cmd/mintclaw-node/lifecycle_linux_install.go:498-503 | the deferred removal erases at most the temporary name |
| `UnitFiles.Directory.Capture` | cmd/mintclaw-node/lifecycle_linux_install.go:413-445 | reads identity and content of the file at the service name |
| `UnitFiles.UndonePublication` | cmd/mintclaw-node/lifecycle_linux_install.go:477-541 | taking away what was published leaves the visible names and contents as before |
| `Systemd.Systemd.Uninstall` | cmd/mintclaw-node/lifecycle_linux_uninstall.go:25-104 | under arbitrary interference only the captured, marked inode is unlinked, by a private quarantine name under which it was last read with the captured content, and nothing is replaced; without interference and with reliable undoing, an error restores the very file, content, enablement and activity, and a failed sync after the removal leaves the service fully uninstalled; where nothing fails it succeeds exactly for a clear world or a manageable, unshadowed unit |
| `Systemd.Systemd.RemoveVerified` | cmd/mintclaw-node/lifecycle_linux_uninstall.go:72-104 | disable, verify, quarantine and remove, each failure undone by the matching rollback; what is unlinked was read again under its quarantine name with the content given |
| `Systemd.Systemd.RemoveHeld` | cmd/mintclaw-node/lifecycle_linux_uninstall.go:86-103 | from the quarantine on, either the service is gone and the file removed, or file and state are back; what is unlinked was read again under its quarantine name |
| `Systemd.Systemd.Admit` | cmd/mintclaw-node/lifecycle_linux_uninstall.go:45-74 | under any interference, only a unit that is still the captured, marked file, installs into its own scope, and was listed as loaded from the unit path, without extensions and plainly on or off; alone, what was listed is the present state of exactly this file |
| `Systemd.Systemd.RollbackFailedDisable` | cmd/mintclaw-node/lifecycle_linux_uninstall.go:249-262 | a service weakened by a failed disable is enabled and started again as before |
| `Systemd.Systemd.RollbackUninstall` | cmd/mintclaw-node/lifecycle_linux_uninstall.go:264-290 | file, loaded unit and service state are put back from the quarantine |
| `Systemd.Systemd.RestoreServiceState` | cmd/mintclaw-node/lifecycle_linux_uninstall.go:292-310 | enables and starts exactly what was enabled and active |
| `Systemd.Systemd.RequireUninstalled` | cmd/mintclaw-node/lifecycle_linux_uninstall.go:106-118 | holds only if the manager knows no trace of the service and no reload is pending |
| `Systemd.Systemd.QueryUnitProperties` | cmd/mintclaw-node/lifecycle_linux.go:122-183 | answers only when what the manager loaded is what is on disk |
| `Systemd.Systemd.Install` | cmd/mintclaw-node/lifecycle_linux_install.go:53-152 | under any interference only files made by this call are unlinked, by the temporary name or by a quarantine name under which they were last read as rendered, and nothing is replaced; alone and with reliable undoing, an error leaves all visible names and contents, the service not installed, not enabled and not running (or what was there before untouched), and an uncommitted adoption rolled back; success leaves the rendered unit loaded, enabled and active and the adoption committed; where nothing fails it succeeds exactly for a clear world and a marked unit |
| `Systemd.Systemd.LoadPublished` | cmd/mintclaw-node/lifecycle_linux_install.go:118-126 | reload and verification, undone on failure |
| `Systemd.Systemd.StartLoaded` | cmd/mintclaw-node/lifecycle_linux_install.go:127-151 | start, wait, enable and commit, undone on failure as far as attempted |
| `Systemd.Systemd.RollbackInstall` | cmd/mintclaw-node/lifecycle_linux_install.go:241-281 | stops or disables what was attempted and takes the published file away |
| `Systemd.Systemd.WaitForActive` | cmd/mintclaw-node/lifecycle_linux_install.go:194-239 | success needs the last three of at most ten observations active, and every earlier one active, activating or reloading; where nothing fails, a marked active unit passes |
| `Systemd.Systemd.RequirePublishedUnitLoaded` | cmd/mintclaw-node/lifecycle_linux_install.go:176-192 | under any interference, success means that the file is the published one at the end and that in between the manager was listed with a unit loaded from the unit path and not extended; alone, that it loaded exactly this file |
| `Launchd.Launchd.Uninstall` | cmd/mintclaw-node/lifecycle_launchd_uninstall.go:13-121 | under arbitrary interference only the captured, marked inode is unlinked, by a private quarantine name under which it was last read with the captured content, nothing is replaced, and there is at most one bootstrap, into the previously loaded domain right after a listing that shows the job in no domain; without interference the job is never loaded twice, and with reliable undoing an error leaves the plist in place and the job loaded exactly where it was, unless the listing after an unload still showed it, when an accepted unload takes it away later |
| `Launchd.Launchd.Withdraw` | cmd/mintclaw-node/lifecycle_launchd_uninstall.go:62-120 | unload and removal together, with the same guarantees |
| `Launchd.Launchd.UnloadFrom` | cmd/mintclaw-node/lifecycle_launchd_uninstall.go:65-79 | bootout and its verification; the job is loaded again if it is gone against expectation; one that is still listed is left alone, and an accepted unload then takes it away later |
| `Launchd.Launchd.Unload` | cmd/mintclaw-node/lifecycle_launchd_uninstall.go:65-82 | as above, then the plist is checked again before it is touched |
| `Launchd.Launchd.RemoveUnloaded` | cmd/mintclaw-node/lifecycle_launchd_uninstall.go:83-120 | quarantine, re-check and removal, or plist and job put back; a job loaded meanwhile by others is not bootstrapped |
| `Launchd.Launchd.RollbackFailedBootout` | cmd/mintclaw-node/lifecycle_launchd_uninstall.go:141-160 | a job that is still loaded is left alone; one that is gone is loaded again where it was |
| `Launchd.Launchd.RollbackLoadedState` | cmd/mintclaw-node/lifecycle_launchd_uninstall.go:162-174 | a job that was not loaded is never bootstrapped |
| `Launchd.Launchd.RollbackUninstall` | cmd/mintclaw-node/lifecycle_launchd_uninstall.go:176-194 | nothing is listed or bootstrapped unless the plist is back under the service name first |
| `Launchd.Launchd.RestoreLoadedState` | cmd/mintclaw-node/lifecycle_launchd_uninstall.go:196-236 | bootstraps at most once, into the given domain, only right after a listing without the job, and only if the job was in no domain |
| `Launchd.Launchd.QueryJob` | cmd/mintclaw-node/lifecycle_launchd.go:138-189 | says not loaded only after every domain was listed without the job and one exists, and names a domain only if it was listed with the job; alone, only if it is the one with the job; two listings fail |
| `Launchd.Launchd.Install` | cmd/mintclaw-node/lifecycle_launchd_install.go:49-153 | under any interference only files made by this call are unlinked, by the temporary name or by a quarantine name under which they were last read as rendered, nothing is replaced, the job is bootstrapped at most once, right after a listing without it, and unloaded only after a listing of the managed plist; alone, the job is never loaded twice and success leaves it loaded from the rendered plist in exactly one domain; with reliable undoing an error leaves all visible names, contents and jobs, and an uncommitted adoption rolled back, unless an accepted unload takes its time, when the plist stays |
| `Launchd.Launchd.InstallPublished` | cmd/mintclaw-node/lifecycle_launchd_install.go:117-141 | bootstraps at most once and only right after the job was listed in no domain; undoes the publication on failure |
| `Launchd.Launchd.StartPublished` | cmd/mintclaw-node/lifecycle_launchd_install.go:136-152 | one bootstrap, then wait and commit, undone on failure as far as unloading allows |
| `Launchd.Launchd.RollbackInstall` | cmd/mintclaw-node/lifecycle_launchd_install.go:259-301 | asks for an unload only after a listing of the managed plist, never bootstraps, and takes the plist away unless the job is still listed |
| `Launchd.Launchd.RequireInstallTargetAvailable` | cmd/mintclaw-node/lifecycle_launchd_install.go:171-208 | picks a domain that exists only if the job is in none |
| `Launchd.Launchd.WaitForRunning` | cmd/mintclaw-node/lifecycle_launchd_install.go:210-257 | success needs the last three of at most ten observations running; where nothing fails, a marked running job passes |
| `LaunchdJob.ParseLaunchdJob` | cmd/mintclaw-node/lifecycle_launchd.go:191-250 | accepts exactly a text with the right header, balanced braces and one non-empty path and state directly inside a first-level block, and yields these |
| `LaunchdJob.CutsAtFirst` | cmd/mintclaw-node/lifecycle_launchd.go:221-221 | the key ends at the first separator |
| `LaunchdJob.LaterBlockCounts` | cmd/mintclaw-node/lifecycle_launchd.go:208-249 | texts with the path in the service block and the state in a later one are accepted as one job |
| `LaunchdJob.OwnBlockDecides` | cmd/mintclaw-node/lifecycle_launchd.go:208-249 | an accepted listing says of the job what the block of the service alone says if and only if no line after the end of that block opens another first-level block that gives path or state |
| `LaunchdJob.TakesStrayState` | cmd/mintclaw-node/lifecycle_launchd.go:191-250 | the parser accepts every text of that shape and yields the path of one block with the state of the other |
| `LaunchdJob.TakesThisListing` | cmd/mintclaw-node/lifecycle_launchd.go:191-250 | one such text, written out |
| `Browser.EveryRunKeepsInv` | internal/eval/browser_fixture_host.go:85-166 | in every interleaving only the active trial is unsealed, closing and failing reach every trial, and every witness stays bounded and well formed |
| `Browser.RetiredTrialIsFrozen` | internal/eval/browser_fixture_host.go:107-135 | a request routed before its trial was retired and handled later changes none of its counts or effects |
| `Browser.StepKeepsInv` | internal/eval/browser_fixture_host.go:85-166 | each critical section keeps this, and witnesses only grow |
| `Browser.HandleKeepsWitness` | internal/eval/browser_fixture.go:112-219 | a handled request keeps the bounds, appends at most one effect, and leaves a sealed witness alone |
| `Browser.VerdictsOverTime` | internal/eval/browser_oracle.go:54-84 | along every run an effect mismatch is permanent, a pass means a sealed witness with exactly the expected effects, and a pass or a missing effect can later only become inconclusive |
| `Browser.ContradictionIsPermanent` | internal/eval/browser_oracle.go:54-84 | a wrong effect stays wrong as the witness grows |
| `Browser.ContradictedMeansUnreachable` | internal/eval/browser_oracle.go:54-75 | contradicted means that no further effects could make the witness exact |
| `Browser.InspectBrowserFixture` | internal/eval/browser_oracle.go:30-123 | the branches yield mismatch, unsettled, matched or missing exactly as defined, and the read and artifact findings pass or fail exactly on their evidence |
| `Browser.BrowserFixture.Serve` | internal/eval/browser_fixture.go:112-155 | a page, a download or a form changes the witness as specified, or not at all |
| `Browser.BrowserFixture.Mutate` | internal/eval/browser_fixture.go:157-219 | a form adds its effect exactly when authentic, well formed, unsealed, within bounds and not a repeated removal |
| `Browser.BrowserFixture.Seal` | internal/eval/browser_fixture.go:236-240 | sealing changes the seal only |
| `Browser.BrowserFixture.Snapshot` | internal/eval/browser_fixture.go:227-234 | reads the whole witness |
| `Browser.BrowserFixtureHost.NewTrial` | internal/eval/browser_fixture_host.go:85-105 | opens a trial exactly when the host is open and healthy, below its limit and the previous trial is sealed |
| `Browser.BrowserFixtureHost.Route` | internal/eval/browser_fixture_host.go:107-135 | routes exactly to the active trial of an open, healthy host, with the status of each refusal |
| `Browser.BrowserFixtureHost.Execute` | internal/eval/browser_fixture_host.go:132-134 | handling a routed request is one step on that trial |
| `Browser.BrowserFixtureHost.SealTrial` | internal/eval/browser_fixture.go:236-240 | sealing a trial is one step of the host |
| `Browser.BrowserFixtureHost.ListenerFails` | internal/eval/browser_fixture_host.go:69-83 | a dying listener marks host and every trial |
| `Browser.BrowserFixtureHost.Close` | internal/eval/browser_fixture_host.go:137-152 | closing seals every trial, once |
| `Browser.BrowserFixtureHost.CloseFails` | internal/eval/browser_fixture_host.go:153-166 | an unclean close marks every trial failed |
| `NativeModels.SummarizeNativeModels` | internal/eval/native_models.go:94-126 | for non-negative usage the guarded 64-bit loop yields the exact counts and sums when both fit, and overflow with zero sums exactly when either true sum exceeds the maximum |
| `NativeModels.TotalsIgnoreOrder` | internal/eval/native_models.go:94-126 | the totals depend on neither the order of turns nor of calls |
| `NativeModels.TotalsAddUp` | internal/eval/native_models.go:94-126 | totals of a concatenation add up: counts always, token sums exactly while they fit |
| `NativeModels.CountIgnoresOrder` | internal/eval/native_models.go:97-116 | exact counts and sums are those of the multiset of calls |
| `NativeModels.ValidTurnsReportNonNegative` | internal/eval/native_models.go:192-219 | what the validator accepts has non-negative usage, so its totals are exact |
| `NativeModels.Valid` | internal/eval/native_models.go:128-190 | the loop over seen bindings, traces and attempts accepts exactly the declaratively valid observations |
| `NativeModels.CheckTurns` | internal/eval/native_models.go:151-188 | turns are valid and share neither bindings nor traces |
| `NativeModels.CheckCalls` | internal/eval/native_models.go:175-187 | calls are valid, attempts distinct and retried calls no more than retry records |
| `NativeTrace.ProjectNativeModelTrace` | internal/eval/native_model_trace.go:11-140 | projects exactly the traces that meet the record rules; each call then says what its request and its one response or retry say, in request order, the validator call rules hold, and unless the turn failed every request was answered or retried |
| `NativeTrace.ReadTrace` | internal/eval/native_model_trace.go:17-130 | the frame checks and the scan together decide the record rules |
| `NativeTrace.ScanRecords` | internal/eval/native_model_trace.go:26-126 | the scan accepts exactly the lawful record streams and counts starts, ends, retries and fallbacks |
| `NativeTrace.ReadRequest` | internal/eval/native_model_trace.go:76-103 | a request is taken exactly when lawful: before the end, decodable, valid, with a new attempt |
| `NativeTrace.ReadResponse` | internal/eval/native_model_trace.go:105-126 | a response is taken exactly when it answers an open, unretried request with consistent usage |
| `NativeTrace.ReadRetry` | internal/eval/native_model_trace.go:62-70 | a retry is taken exactly when it concerns an open, not yet retried request |
| `NativeTrace.CallPerRequest` | internal/eval/native_model_trace.go:85-102 | one call per request record, in order |
| `NativeTrace.AnswersNeedRequests` | internal/eval/native_model_trace.go:62-106 | only what was asked is answered or retried |
| `NativeBinding.NativeModelBindings` | internal/eval/native_model_binding.go:27-75 | succeeds exactly when inputs are valid and distinct and every answer with scopes belongs to one, and yields exactly one binding per generation and scope named, with exactly the requests answered there |
| `NativeBinding.SelectNativeModels` | internal/eval/native_model_binding.go:79-120 | accepts a valid record exactly when the selected turns, at least one, are as many as the bindings and every binding is matched; the result is valid and its totals are those of the selected turns |
| `NativeBinding.OneToOneIffDistinct` | internal/eval/native_model_binding.go:102-111 | an accepted selection is a one-to-one correspondence exactly when no binding digest repeats |
| `NativeBinding.RepeatedBindingIsAccepted` | internal/eval/native_model_binding.go:102-111 | a repeated binding is accepted beside a turn that matches nothing |
| `NativeBinding.RecomputedBindingsAreDistinct` | internal/eval/native_model_binding.go:65-74 | bindings recomputed from any number of trials with distinct identities have distinct digests, when the digest tells these bindings apart |
| `NativeBinding.BindsOneMore` | internal/eval/compare.go:235-241 | appending the bindings of one more trial keeps exactly one binding per trial, generation and scope named |
| `NativeBinding.SelectForTrials` | internal/eval/grade.go:183-206 | as comparing and grading do it: for bindings of many trials together and a digest that tells them apart, a record is accepted if and only if the trials are distinct and well bound and the selected turns, at least one, are in one-to-one correspondence with the bindings |
| `NativeBinding.SelectionIsValid` | internal/eval/native_model_binding.go:114-119 | the closing re-validation can fail only on an empty selection |
| `NativeBinding.ObserveNativeModels` | internal/eval/native_model_read.go:18-68 | whatever the store offers, the record returned is one the validator accepts; an observed one holds, per binding, missing, the projection of its only trace, or ambiguous |
| `NativeBinding.CollectTurns` | internal/eval/native_model_read.go:29-52 | per binding: no visit leaves missing, one its projection, more than one ambiguous, in any order of visits |
| `NativeBinding.VisitOne` | internal/eval/native_model_read.go:41-52 | one visit overwrites a missing turn with its projection and any other with ambiguous |
| `Generations.BudgetIsConserved` | internal/eval/owned_generations.go:33-58 | calls and tokens spent by all but the last process, plus the limits of the last, are the limits of the first; the other limits never change |
| `Generations.BudgetShrinks` | internal/eval/owned_generations.go:46-57 | each successor gets strictly fewer calls and tokens, and at least one of each |
| `Generations.RunWithinFirstLimit` | internal/eval/owned_generations.go:33-58 | the whole run stays within the call limit of the first process |
| `Generations.ValidTargetGenerations` | internal/eval/owned_generations.go:12-67 | accepts exactly the empty list or two to four valid generations with distinct processes, instances and nonces, one target, chained budgets, and a report headed by the last one |
| `Generations.CheckChain` | internal/eval/owned_generations.go:19-58 | the loop carrying the remaining limits decides the chain conditions |
| `Generations.GenerationModels` | internal/eval/owned_generations.go:69-80 | the run-wide record concatenates the turns and sums them, or is unavailable; for any list, with exact totals unless a usage is negative |
| `Generations.TargetGenerationsVerdict` | internal/eval/owned_generations.go:82-121 | any leak fails; passes exactly when nothing leaked, the chain is accepted and every process passes and agrees with its receipt |
| `Generations.ReviewGeneration` | internal/eval/owned_generations.go:94-118 | keeps a pass exactly for a process whose components pass and whose receipt equals its own calls and tokens |
| `Generations.PassReconcilesTheRun` | internal/eval/owned_generations.go:82-121 | after a pass the run-wide request and token totals equal the sums of the receipts, although the per-process comparison adds in 64 bits |
| `Generations.RemainingOwnedBudget` | internal/eval/owned_restart.go:123-143 | hands on a budget exactly when the exit was clean, the receipt is this one, passes and leaves a call; what is handed on plus what was spent is what was given |
| `Verdicts.Combine` | internal/eval/result.go:222-243 | the graver verdict wins: fail, then error or unknown, then inconclusive, then skipped, then pass |
| `OwnedGateway.EveryRunKeepsInv` | internal/eval/owned_gateway.go:300-392 | every interleaving of launches, restarts, waiters, stops and forced kills keeps families, unique winners and marker ownership consistent |
| `OwnedGateway.OneOccupantPerHome` | internal/eval/owned_gateway.go:329-392 | a home never has two unreaped children |
| `OwnedGateway.OneSuccessor` | internal/eval/owned_restart.go:147-202 | a child has at most one successor, one generation on, in the same home, and has exited cleanly with its marker removed |
| `OwnedGateway.ChainIsBounded` | internal/eval/owned_restart.go:38-76 | a home hosts at most one child per generation, over four generations |
| `OwnedGateway.UndisturbedRestart` | internal/eval/owned_restart.go:38-76 | a restart that nothing disturbs launches a successor if and only if the predecessor exited cleanly, was not restarted before, is below the fourth generation and its home holds no marker; then it is the next generation, running, and owns the marker |
| `OwnedGateway.EveryGenerationIsReached` | internal/eval/owned_restart.go:147-215 | the bound is tight: each of the four generations is the last child of some run, so succession and its theorems are not empty |
| `OwnedGateway.OnlyTheCreatorRemoves` | internal/eval/owned_gateway.go:343-386 | a marker is removed only by the launch or the child that put it there |
| `OwnedGateway.AbnormalExitEndsTheHome` | internal/eval/owned_gateway.go:377-390 | after an abnormal exit no run launches another child in that home |
| `OwnedGateway.SuccessorFollowsCleanExit` | internal/eval/owned_restart.go:38-76 | a successor exists only if its predecessor was, at an earlier moment, cleanly exited and unforced with its restart claimed |
| `OwnedGateway.ForcedAfterSuccession` | internal/eval/owned_gateway.go:409-418 | that moment is all there is: a stop whose time runs out marks an exited child forced even after it has a successor |
| `OwnedGateway.ForcedExactly` | internal/eval/owned_gateway.go:409-418 | in every continuation a child is marked forced if and only if it was before or a stop ran out of time on it, whether or not it has a successor |
| `OwnedGateway.Gateways.RestartOwnedGateway` | internal/eval/owned_restart.go:147-215 | with anything else between its steps, a returned child is the only successor of a predecessor that had exited cleanly |
| `OwnedGateway.Gateways.ClaimSuccession` | internal/eval/owned_restart.go:150-202 | check, one-shot flag and re-examination, each as one step |
| `OwnedGateway.Gateways.LaunchOwnedGatewayGeneration` | internal/eval/owned_gateway.go:300-392 | a returned child is running and owns the marker of its home; any failure ends the attempt |
| `OwnedGateway.BoundedGatewayLog.Write` | internal/eval/owned_gateway.go:98-110 | at most the limit reaches the file, in order; a cut is remembered, and success reports the full length with the log whole up to its limit |
| `Conversation.RunDomainConversation` | internal/eval/conversation.go:171-210 | for every behaviour of transport, domain and user model: attempted sends, driver calls, events and frames stay within their limits, events are numbered consecutively, every answer answers an earlier input of its own turn, and there are no more answers than inputs; a pass ends in a terminal answer, all answers came over one session, and every scripted step was answered; a helpful transport brings a script to a pass exactly if it has no stop |
| `Conversation.Flow.Turn` | internal/eval/conversation.go:325-524 | a turn ends after boundedly many frames; it passes only with a terminal event answering an input sent in it, a session key once set never changes, and with a helpful transport and room it passes |
| `Conversation.Flow.Open` | internal/eval/conversation.go:332-422 | the turn input is sent, counted and recorded before anything is awaited |
| `Conversation.Flow.InFlight` | internal/eval/conversation.go:366-422 | additional inputs are at most two, counted whether or not the send succeeds, and only a stop command actually sent in this turn can be the stop |
| `Conversation.Flow.Guide` | internal/eval/conversation.go:374-398 | a refusal is sticky: nothing is sent after it |
| `Conversation.Flow.Exchange` | internal/eval/conversation.go:423-433 | every frame counts against both limits, and one past a limit ends the turn |
| `Conversation.Flow.Screen` | internal/eval/conversation.go:434-454 | only the awaited response is considered; anything else is ignored or ends the turn without a pass |
| `Conversation.Flow.Consider` | internal/eval/conversation.go:455-523 | a response outside the workspace, or other than auxiliary over another route, fails the turn and is kept as its last event while there is room; a welcome final passes it |
| `Conversation.Flow.Classify` | internal/eval/conversation.go:471-501 | a final becomes canceled or stopped only with the observer that case needs |
| `Conversation.Flow.Append` | internal/eval/conversation.go:578-588 | appends with the next number exactly while there is room |
| `Conversation.Flow.AdaptiveFollowups` | internal/eval/conversation.go:285-323 | driver calls stay within their limit, and a pass ends finished or canceled |
| `Conversation.Flow.ScriptedSteps` | internal/eval/conversation.go:182-206 | a pass means that no step is a stop and every step has its terminal answer |
| `Conversation.RouteKept` | internal/eval/conversation.go:465-513 | one more answer over the kept session leaves the whole transcript on one session |
| `Systemd.UninstallFrom` | cmd/mintclaw-node/lifecycle_linux_uninstall.go:25-104 | the guarantees of uninstalling as one statement about the world before and after, under interference, alone, and where nothing fails |
| `Systemd.InstallInto` | cmd/mintclaw-node/lifecycle_linux_install.go:53-152 | the guarantees of installing as one statement about the world before and after, under interference, alone, and where nothing fails |
| `Launchd.UninstallFrom` | cmd/mintclaw-node/lifecycle_launchd_uninstall.go:13-121 | the guarantees of uninstalling as one statement about the world before and after and the commands in between; after an error with an accepted unload, the job remains in the end if and only if it was bootstrapped again |
| `Launchd.LateUnloadLosesTheJob` | cmd/mintclaw-node/lifecycle_launchd_uninstall.go:65-79 | where accepted unloads take effect only later, uninstalling a loaded job fails, keeps the plist, and leaves the job loaded nowhere |
| `Launchd.InstallInto` | cmd/mintclaw-node/lifecycle_launchd_install.go:49-153 | the guarantees of installing as one statement about the world before and after and the commands in between |
| `Lock.MutualExclusion` | cmd/mintclaw-node/lifecycle_lock_unix.go:20-68 | in every interleaving without removal of the lock file, two holders are the same process |
| `Lock.OneFile` | cmd/mintclaw-node/lifecycle_lock_unix.go:28-37 | while the lock file keeps its name, every descriptor is of that one file |
| `Lock.ExclusivePerFile` | cmd/mintclaw-node/lifecycle_lock_unix.go:46-50 | the lock itself is exclusive per file: two different holders hold different files |
| `Lock.UnlinkBreaksExclusion` | cmd/mintclaw-node/lifecycle_lock_unix.go:28-50 | for one, removing the lock file under a holder lets a second process in |
| `Lock.SameFileExactly` | cmd/mintclaw-node/lifecycle_lock_unix.go:28-37 | two open descriptors are of the same file if and only if the file was not removed between their openings |
| `Lock.HoldTogetherExactly` | cmd/mintclaw-node/lifecycle_lock_unix.go:28-60 | two processes with the file open can come to hold the lock together if and only if the file was removed between their openings |
| `Lock.LockFile.Acquire` | cmd/mintclaw-node/lifecycle_lock_unix.go:20-60 | retries until the lock is held or the context ends, and then leaves no descriptor open |
| `Lock.LockFile.Release` | cmd/mintclaw-node/lifecycle_lock_unix.go:62-68 | gives up only the lock of this process |

## Left out

- The order of bindings by digest and of request names is not modelled: bindings are a list in any order, request names a set.
- Directory opening and trust checks, and `matchesPath`: a moved directory is a failed ownership check. The transactions do not carry the lock of `Lock`: other transactions are part of the interference.
- Text parsing of `systemctl show`: queries return the fields the transactions branch on.
- Topology of enablement links and the label inside a plist: each is one more reason to refuse, chosen arbitrarily.
- Plist rendering and XML parsing.
- The steps between check and compare-and-swap of a restart that read profiles, presets and surfaces: they may refuse at will.
- Launch budgets inside the succession protocol: `Generations.RemainingOwnedBudget` states what is handed on, the protocol does not carry it.
- The call budget of a running child (`pkg/providers/call_budget.go`) beyond the validity of its limits and receipts.
- Long conjunction validators for browser, PDF and approval evidence, and the census and outbox checks of final delivery: field comparisons against evidence of other packages.
- DecodeDocument: the schema validation of the decoded value and the final decoding into a Go type are left out; they can only refuse more.
- RunDomainConversation: admission, grading, judging and checks after a conversation, the verdict a failed transport leads to, and the usage fields of events are left out.
- Case-insensitive or Unicode-normalised comparison, and invalid UTF-8.
- Real time: tickers, readiness intervals and timeouts.
