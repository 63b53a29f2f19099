# syslog-ng buffer drain coordinator

A Dafny model of the buffer-volume drain logic of the logging operator's syslog-ng reconciler.

When the syslog-ng statefulset scales down, the persistent volume claims of the removed ordinals still hold buffered log data. On every reconcile, `reconcileDrain` does the following:

- It lists the drainable claims, the statefulset pods, the replica count and the drainer jobs.
- It works out which claims are in use: a pod's buffer volume claims them, or they belong to an ordinal below the replica count.
- It works out which drainer job mounts which claim.
- It walks the claims in list order, and for each one takes the first matching branch:
  - a drained claim in use again loses its `drained` label;
  - a succeeded drainer gets the claim labelled, then the job deleted, then the placeholder pod freed;
  - a claim needed again while its drainer runs gets the job deleted and the placeholder freed;
  - a failed drainer is reported;
  - an idle, undrained claim without a job gets a placeholder pod, then a drainer job built by `drainerJobFor`.

The errors and requeue requests of all claims are combined into the pass's result. The model also covers the config-check phase of `Reconcile`.

Module layout, following the source:

- `Strings`: `strings.LastIndex` for one separator character, and `%d`.
- `Kube`: the Kubernetes objects the pass reads and writes.
- `Api`: the Logging resource and its syslog-ng spec.
- `Observe`: the pass's reads.
  - `markedAsDrained`, the drainable selector and `jobSuccessfullyCompleted`.
  - `findVolumeByName`: a loop.
  - The in-use map and the job map: built by loops.
- `DrainJob`: `drainerJobFor`, `drainWatchContainer` and `withoutSyslogNGOutLogrotate`.
  - `DrainerJobFor` is the imperative builder.
  - It is proved equal to the function `DrainerJob`.
- `Coordinator`: the per-claim logic.
  - The decision chain as one function, `Decide`.
  - The calls each branch makes, while the rule that the first failed call ends the branch (`continue`) is in `Run`.
  - The folding of results into a combined result.
- `Drain`: the API client as a `Store` class, the pass specification `Pass` and the imperative `ReconcileDrain`.
  - The client journals every mutating call. It answers from a fixed reply function.
  - `ReconcileDrain` is proved to make exactly `Pass`'s calls and to return exactly `Pass`'s result and errors.
- `ConfigCheck`: the config-check phase, in place on the status's verdict map.
- `DrainLemmas`: the properties of a pass.

## Model

| member | source | states |
|---|---|---|
| Strings.LastIndex | pkg/resources/syslogng/drainjob.go:83 | The last position of the separator, or -1 when there is none. No later position holds it. |
| Strings.LastIndexOfAppendedSeparator | pkg/resources/syslogng/drainjob.go:83 | Appending `-` and then text without `-` moves the last separator to the appended one. |
| Strings.Decimal | pkg/resources/syslogng/syslogng.go:282 | `%d` of a non-negative count is a non-empty string of digits with no leading zero: it starts with `0` exactly when the number is 0, and then it is that one digit. |
| Strings.DecimalRoundTrip | pkg/resources/syslogng/syslogng.go:282 | Reading the digits `%d` wrote gives back the number. |
| Strings.DecimalInjective | pkg/resources/syslogng/syslogng.go:282 | Different numbers are rendered differently. |
| Kube.LabelValue | pkg/resources/syslogng/syslogng.go:412 | A label lookup reads the stored value, and "" when the key is missing (Go map semantics). |
| Api.ServiceAccountName | pkg/resources/syslogng/syslogng.go:80-85 | The configured service account if non-empty, otherwise the qualified default `syslogng`. |
| Observe.MarkedAsDrained | pkg/resources/syslogng/syslogng.go:411-413 | True exactly when the drain-status label is present and equals `drained`. |
| Observe.Drainable | pkg/resources/syslogng/syslogng.go:396 | The claim selector: true exactly when the drain label is not `no`. A missing label does not opt out. |
| Observe.DrainableClaims | pkg/resources/syslogng/syslogng.go:253-259 | The listed claims are exactly the drainable ones. |
| Observe.JobSuccessfullyCompleted | pkg/resources/syslogng/syslogng.go:425-427 | A job has succeeded exactly when it has a completion time and at least one succeeded pod. |
| Observe.FirstVolumeIndex | pkg/resources/syslogng/syslogng.go:415-423 | Gives the index of the first volume with the name, or -1. No earlier volume (or, for -1, no volume) has the name. |
| Observe.FindVolumeByName | pkg/resources/syslogng/syslogng.go:415-423 | The loop returns nil exactly when no volume has the name. Otherwise it returns the first volume with that name. |
| Observe.OrdinalClaimsDistinct | pkg/resources/syslogng/syslogng.go:281-283 | Distinct ordinals mark distinct claims as in use. |
| Observe.OrdinalClaim | pkg/resources/syslogng/syslogng.go:282 | The claim of ordinal `i` is `<bufVol>-<sts>-` followed by `%d` of `i`. Its last `-` is the one before the ordinal, so the job name cut from it carries the ordinal. |
| Observe.ReplicaCountOrZero | pkg/resources/syslogng/syslogng.go:281 | `PointerToInt32`: a nil replica count reads as 0, and a set one as its value. |
| Observe.MarkPodClaims | pkg/resources/syslogng/syslogng.go:268-273 | The map's keys are exactly the claims of the pods' buffer volumes, and every value is true. |
| Observe.MarkOrdinalClaims | pkg/resources/syslogng/syslogng.go:275-283 | Adds exactly `<bufVol>-<sts>-<i>` for `0 <= i < replicas`, as true (none for a count of zero or less). Every other entry is kept. |
| Observe.IndexJobs | pkg/resources/syslogng/syslogng.go:290-295 | A claim has an entry exactly when some listed job's buffer volume claims it. The entry is the last such job in list order. |
| Observe.LastJobFor | pkg/resources/syslogng/syslogng.go:290-295 | The job a claim's entry holds always mounts that claim as its buffer volume. |
| Observe.LastJobForNone | pkg/resources/syslogng/syslogng.go:290-295 | No entry exactly when no listed job mounts the claim. |
| Observe.LastJobForIsLast | pkg/resources/syslogng/syslogng.go:290-295 | The entry is a listed job that mounts the claim, and no later listed job mounts it. |
| DrainJob.WithoutSyslogNGOutLogrotate | pkg/resources/syslogng/drainjob.go:109-113 | The copy has no out-logrotate. It equals the input in every other field. |
| DrainJob.DrainWatchContainer | pkg/resources/syslogng/drainjob.go:88-107 | Named `drain-watch` with the configured image and pull policy. It has the single env var `BUFFER_PATH=/buffers` and a single read-only mount of the buffer volume at `/buffers`. |
| DrainJob.JobName | pkg/resources/syslogng/drainjob.go:83 | `syslogng`, then the claim name from its last `-`, then `-drainer`. |
| DrainJob.OrdinalJobName | pkg/resources/syslogng/drainjob.go:83 | The claim of ordinal `i` gets the job `syslogng-<i>-drainer`. |
| DrainJob.DrainerPodSpec | pkg/resources/syslogng/drainjob.go:29-76 | Containers are syslog-ng, then drain-watch, then the sidecar if configured. See "Details for `DrainJob.DrainerPodSpec`" below the table. |
| DrainJob.ApplyExtraVolumes | pkg/resources/syslogng/drainjob.go:77-81 | With no extra volumes the spec is unchanged. An error is one some extra volume's apply returned. |
| DrainJob.ApplyExtraVolumesSplit | pkg/resources/syslogng/drainjob.go:77-81 | Applying a list in two parts: the second part starts from the spec the first part left, and is skipped when the first part failed. |
| DrainJob.ApplyFailureStopsBuild | pkg/resources/syslogng/drainjob.go:77-81 | The first extra volume that fails to apply, after those before it applied, fails the whole application with its own error. |
| DrainJob.ApplySuccessAppliedEach | pkg/resources/syslogng/drainjob.go:77-81 | When the application succeeds, every extra volume applied to the spec the earlier ones left. Each prefix's result is the previous prefix's result with that volume applied. |
| DrainJob.DrainerJob | pkg/resources/syslogng/drainjob.go:26-86 | The build fails exactly when applying the extra volumes to `DrainerPodSpec` fails, with that error. Otherwise the template spec is the applied spec, the object meta is the job name with the drainer component, the template labels and annotations are the drainer labels and drain annotations, and the status is empty. The claim's name needs a `-` only when every extra volume applied. |
| DrainJob.ExtraVolumeFailureFailsDrainerJob | pkg/resources/syslogng/drainjob.go:77-81 | An extra volume that fails to apply, after those before it applied, is the build's error, whatever the claim's name. |
| DrainJob.DrainerJobFor | pkg/resources/syslogng/drainjob.go:26-86 | The imperative builder, with its apply loop, returns exactly `DrainerJob`. It returns on the first failing extra volume before it slices the name. |
| Coordinator.Merge | pkg/resources/syslogng/syslogng.go:372 | Merging two requeue results is zero exactly when both are. It requeues when either does. |
| Coordinator.MergeAllIsZero | pkg/resources/syslogng/syslogng.go:377-381 | The combined result stays zero exactly when every merged result is zero. |
| Coordinator.MergeAllAppend | pkg/resources/syslogng/syslogng.go:297-376 | Merging the results of two runs in sequence is merging the results of the first run, then those of the second. |
| Coordinator.Decide | pkg/resources/syslogng/syslogng.go:301-375 | The first-match chain as a table: each branch is taken for exactly the combination of drained, in use and job state its case names. |
| Coordinator.IgnoreNotFound | pkg/resources/syslogng/syslogng.go:308 | No error exactly when there was none or it was NotFound. Any other error is kept. |
| Coordinator.Outcome | pkg/resources/syslogng/syslogng.go:308-373 | A call stops its branch exactly when it adds an error, and adds at most one error and one requeue request. A patch or delete stops on any error but NotFound and never adds a request. A placeholder call stops on an error and keeps its request only then. The job's reconcile stops on an error and always keeps its request. |
| Coordinator.Run | pkg/resources/syslogng/syslogng.go:308-373 | A branch's run makes at most its steps' calls, adds at most one error, and adds no more requests than calls. |
| Coordinator.RunStopsAtFirstFailure | pkg/resources/syslogng/syslogng.go:315-350 | A branch makes its calls in order. Every call before the last succeeded. It ends early only at a failed call or a raised error. |
| Coordinator.RemoveLabelSteps | pkg/resources/syslogng/syslogng.go:303-312 | One patch of the claim whose labels lack the drain-status label and agree with the claim's on every other label. NotFound is ignored. |
| Coordinator.FinishSteps | pkg/resources/syslogng/syslogng.go:315-335 | A patch that marks the claim drained and keeps every other label, then the job's Background delete, then the placeholder's removal. |
| Coordinator.CancelSteps | pkg/resources/syslogng/syslogng.go:337-350 | The job's Foreground delete, then the placeholder's removal. |
| Coordinator.StartSteps | pkg/resources/syslogng/syslogng.go:361-375 | The placeholder first. Only when it went through: the job built for the claim, or the assembly error. |
| Coordinator.Steps | pkg/resources/syslogng/syslogng.go:301-375 | Each branch's calls, at most three. Only waiting and doing nothing make none, and a raised error is always the last step. A failed drainer raises `DrainingFailed` with its attempts. |
| Coordinator.Combined.CombineErr | pkg/resources/syslogng/syslogng.go:310 | `cr.CombineErr`: the error, if any, is appended after the earlier ones, and the result is untouched. |
| Coordinator.Combined.Combine | pkg/resources/syslogng/syslogng.go:331 | `cr.Combine`: the error as in `CombineErr`. The combined result stays zero exactly when it was zero and the new one is nil or zero, and it requeues when either does. |
| Coordinator.AbsorbConcat | pkg/resources/syslogng/syslogng.go:297-376 | Folding two runs one after the other into the combined result is folding their concatenation. |
| Coordinator.CombineIsAbsorb | pkg/resources/syslogng/syslogng.go:331 | `cr.Combine(res, err)` is folding in the trace holding that result and error. |
| Coordinator.RunStep | pkg/resources/syslogng/syslogng.go:315-335 | A run is the first call's contribution, then the rest of the run unless that call failed. |
| Drain.Store.Patch | pkg/resources/syslogng/syslogng.go:308 | Journals the label patch. Returns the store's answer to it. |
| Drain.Store.Delete | pkg/resources/syslogng/syslogng.go:325 | Journals the job delete with its propagation. Returns the store's answer. |
| Drain.Store.ReconcileResource | pkg/resources/syslogng/syslogng.go:330 | Journals the desired-state call. Returns the store's result and error. |
| Drain.Pass | pkg/resources/syslogng/syslogng.go:244-382 | The pass's specification. When draining is off or an observation fails, it makes no call, returns a nil result and at most one error. A non-nil result is never zero. |
| Drain.UnmarkClaim | pkg/resources/syslogng/syslogng.go:303-312 | Journals exactly the branch's calls and adds exactly its errors to `cr`. |
| Drain.CompleteDrain | pkg/resources/syslogng/syslogng.go:315-335 | Journals exactly the branch's calls and adds exactly their errors and results, with the early `continue`s. |
| Drain.CancelDrainer | pkg/resources/syslogng/syslogng.go:337-350 | Journals exactly the branch's calls and adds exactly their errors and results. |
| Drain.StartDrainer | pkg/resources/syslogng/syslogng.go:361-375 | Journals exactly the branch's calls and adds exactly their errors and results: placeholder, then assembly, then the job. |
| Drain.ReconcileClaim | pkg/resources/syslogng/syslogng.go:298-376 | The loop body's if-chain makes exactly the decided branch's calls. It folds exactly their results into `cr`. |
| Drain.ReconcileListed | pkg/resources/syslogng/syslogng.go:301-314 | The map lookups give the in-use and job facts of the snapshot, and the claim's run follows. |
| Drain.JournalStep | pkg/resources/syslogng/syslogng.go:298 | After one more claim, the journal is the previous one plus that claim's calls. |
| Drain.ReconcileClaims | pkg/resources/syslogng/syslogng.go:297-376 | The loop makes every claim's calls in list order. `cr` is every claim's run folded in. |
| Drain.ReconcileDrain | pkg/resources/syslogng/syslogng.go:244-382 | The whole pass: the journal grows by exactly `Pass`'s calls. The result is nil exactly when the combined result is zero. The errors are the combined errors. |
| ConfigCheck.Without | pkg/resources/syslogng/syslogng.go:145-147 | The removed hashes are gone. Every other verdict is kept. |
| ConfigCheck.PatchOutcome | pkg/resources/syslogng/syslogng.go:148-153 | After the status patch: an explicit requeue, or the patch error. |
| ConfigCheck.PhaseOutcome | pkg/resources/syslogng/syslogng.go:128-181 | Proceeding leaves the verdict map unchanged. A stored verdict is never overwritten: the only entry added is the current hash's, when it had none. A stop carries a requeue or an error, not both. |
| ConfigCheck.ConfigCheckPhase | pkg/resources/syslogng/syslogng.go:128-181 | The phase, with its delete loop, returns and leaves the verdict map exactly as `PhaseOutcome` says. |
| ConfigCheck.ProceedsOnlyWhenValid | pkg/resources/syslogng/syslogng.go:128-181 | Reconcile gets past the phase exactly when the check is disabled, or the hash's stored verdict is true and nothing is pruned. The map is then unchanged. |
| ConfigCheck.StoredInvalidVerdictFails | pkg/resources/syslogng/syslogng.go:133-139 | A stored false verdict fails with "current config is invalid" and changes nothing. |
| ConfigCheck.PruningKeepsValidVerdict | pkg/resources/syslogng/syslogng.go:140-156 | Exactly the removed hashes go and the current verdict stays. The reconcile requeues after the patch. |
| ConfigCheck.ReadyVerdictIsStored | pkg/resources/syslogng/syslogng.go:160-171 | A ready result is stored under the hash, and the reconcile requeues (or reports the patch error). |
| ConfigCheck.PendingVerdictRetriesAfterAMinute | pkg/resources/syslogng/syslogng.go:172-179 | A result that is not ready is not stored. The reconcile is retried after one minute. |
| DrainLemmas.EarlyReturnDemandsNothing | pkg/resources/syslogng/syslogng.go:244-262 | A disabled pass, or one whose claim or pod listing failed, places no demand on the listed pods, jobs or claims: the source returns before it reads them. |
| DrainLemmas.QuietWhenDisabledOrUnobserved | pkg/resources/syslogng/syslogng.go:245-288 | Disabled: no call, no result, no error. A failed list or replica query: no call, no result and exactly the one error naming what failed. |
| DrainLemmas.ConcatAllAppend | pkg/resources/syslogng/syslogng.go:298-376 | The runs of two halves of the claim list, concatenated, are the runs of the whole list. |
| DrainLemmas.ConcatAllAround | pkg/resources/syslogng/syslogng.go:298-376 | Runs in sequence split around any one of them. |
| DrainLemmas.EveryClaimRuns | pkg/resources/syslogng/syslogng.go:298-376 | Errors never stop later claims: every claim's whole run sits between the runs of the claims before it and those after it. |
| DrainLemmas.ConcatAllOps | pkg/resources/syslogng/syslogng.go:298-376 | A call of the pass is a call of some claim's run, and the other way round. |
| DrainLemmas.ConcatAllErrs | pkg/resources/syslogng/syslogng.go:298-376 | An error of the pass is an error of some claim's run, and the other way round. |
| DrainLemmas.ConcatAllResults | pkg/resources/syslogng/syslogng.go:298-376 | A requeue request of the pass is one of some claim's run, and the other way round. |
| DrainLemmas.ConcatAllZero | pkg/resources/syslogng/syslogng.go:377-381 | The merged result is non-zero exactly when some claim requested a non-zero requeue. There are no errors exactly when no claim's run failed. |
| DrainLemmas.PassResultReflectsClaims | pkg/resources/syslogng/syslogng.go:377-381 | The pass returns a non-nil result exactly when some claim asked for a requeue, and no error exactly when no claim failed. |
| DrainLemmas.DrainedInUseOnlyRemovesLabel | pkg/resources/syslogng/syslogng.go:303-312 | A drained, in-use claim gets only the label removal. The error is reported when it is not NotFound. |
| DrainLemmas.FinishDrainOrder | pkg/resources/syslogng/syslogng.go:315-335 | Label drained, then delete the job with Background propagation, then remove the placeholder. Each call happens only if the previous went through. A request is kept only from a failed placeholder removal. |
| DrainLemmas.CancelDrainOrder | pkg/resources/syslogng/syslogng.go:337-350 | Delete the job with Foreground propagation, then remove the placeholder, only when the delete went through. A request is kept only from a failed placeholder removal. |
| DrainLemmas.UnfinishedDrainOnIdleClaim | pkg/resources/syslogng/syslogng.go:352-359 | No call. A failed drainer is reported as DrainingFailed with its attempt count, and a running one not at all. |
| DrainLemmas.StartDrainOrder | pkg/resources/syslogng/syslogng.go:361-375 | The placeholder is ensured first. A failed placeholder ends the branch with its error and keeps its request. Otherwise the built job is reconciled exactly when it assembled: an assembly error is reported alone, and the job's reconcile adds its request and its error. |
| DrainLemmas.JobOnlyForIdleClaim | pkg/resources/syslogng/syslogng.go:361-375 | A claim's run creates a drainer only for an undrained, idle, jobless claim. It does so after that claim's placeholder succeeded, and the job is the one built for the claim. |
| DrainLemmas.JobCreatedOnlyForIdleClaims | pkg/resources/syslogng/syslogng.go:298-376 | The same across the whole pass: every created drainer belongs to such a drainable claim. |
| DrainLemmas.FirstVolumeIndexExtend | pkg/resources/syslogng/syslogng.go:415-423 | Volumes appended after the first match do not change the first match. |
| DrainLemmas.ApplyExtraVolumesKeepsVolumes | pkg/resources/syslogng/drainjob.go:77-81 | An applier that only appends volumes keeps the pod's volumes as a prefix. |
| DrainLemmas.ApplyExtraVolumesKeepsShape | pkg/resources/syslogng/drainjob.go:77-81 | An applier that keeps the restart policy, the service account and the container names keeps them across all the extra volumes. |
| DrainLemmas.BuiltDrainerShape | pkg/resources/syslogng/drainjob.go:29-81 | With such an applier, the built drainer's pod restarts Never, runs as the syslog-ng service account, and runs syslog-ng, then drain-watch, then the sidecar if configured. |
| DrainLemmas.BuiltDrainerMountsItsClaim | pkg/resources/syslogng/drainjob.go:69-76 | The job built for a claim is attributed to that claim by the lookup the pass applies to listed jobs. This holds when no generated volume takes the buffer volume's name. |
| DrainLemmas.ListedDrainerIsNotRecreated | pkg/resources/syslogng/syslogng.go:290-295 | Once a job with the built drainer's volumes is listed, whatever its status, the claim has a job and no second drainer is started. |
| DrainLemmas.LabelPatchesFlipDrained | pkg/resources/syslogng/syslogng.go:307-319 | The finishing patch marks the claim drained and the removing patch unmarks it. Neither changes drainability or another label. |
| DrainLemmas.DrainedClaimSettles | pkg/resources/syslogng/syslogng.go:301-375 | A drained claim without a job is left alone while idle and unlabelled when in use. It never gets a new drainer. |
| DrainLemmas.SucceededDrainOnClaimInUse | pkg/resources/syslogng/syslogng.go:303-335 | A claim in use whose drainer just succeeded is labelled drained. A next pass that finds the claim still in use decides `RemoveDrainedLabel`, the branch that sends the patch removing the label. |
| DrainLemmas.OrdinalClaimsAreInUse | pkg/resources/syslogng/syslogng.go:280-283 | Every ordinal below the replica count holds its claim in use, whether or not a pod mounts it. |

A claim whose drainer succeeded while the claim is in use again is labelled drained in that pass. The chain's first branch (pkg/resources/syslogng/syslogng.go:303-312) sends the patch that removes the label from a drained claim in use. So the next pass that finds the claim still in use sends that patch. If the patch fails, the label stays and the error joins the pass's errors. If the claim is idle by then and has no job, no branch applies and the label stays. The model follows the code here. `DrainLemmas.SucceededDrainOnClaimInUse` states what the next pass decides, and `DrainLemmas.DrainedClaimSettles` states the idle case.

Details for `DrainJob.DrainerPodSpec`:

- The syslog-ng container gets the buffer mount at `/buffers` appended and is otherwise unchanged.
- The volumes are the generated ones plus the buffer volume claiming the claim.
- The restart policy is Never.
- The service account, pull secrets, node selector and priority class come from the spec.

## Left out

- Effects of the calls on stored objects: the store answers each call from a fixed reply function, and nothing is re-read within a pass.
- Label selectors and component labels: the pod and job lists are given already filtered.
- Names: `QualifiedName` is an uninterpreted function of the Logging resource.
- Container image building: `RepositoryWithTag` is not part of this model. The image is a given string.
- Other builders: `syslogNGContainer`, `generateVolume`, `bufferMetricsSidecarContainer`, `ApplyVolumeForPodSpec` and `GetSyslogNGLabels` are parameters (`DrainJob.Builders`). `SyslogNGObjectMeta` (drainjob.go:83) is modelled as the plain `Kube.ObjectMeta(name, component)`: the job's `meta.name` is the unqualified `DrainJob.JobName`, and the namespace, labels and owner references it adds are not modelled.
- `placeholderPodFor` is not part of this model. A placeholder is identified by its claim.
- Tolerations, affinity, topology spread constraints and the pod security context of the drainer pod are not modelled.
- Logging (`r.Log`) and the context argument are left out.
- The rest of `Reconcile`, `RegisterWatches` and the config-check collaborators (`configHash`, `configCheck`, `configCheckCleanup`, the status patch) are not part of this model. Their answers are parameters of `ConfigCheck.ConfigCheckPhase`.
- Coordinator.Merge: operator-tools' `CombinedResult` is not part of this model. The merge rule (requeue if either, earliest positive delay) is assumed. The properties proved use only that the merge is zero exactly when both sides are.
- Drain.ReconcileDrain: the Go code panics where the model has `requires`, and the requirement applies only on the path that reaches the panic. A listed pod's buffer volume without a claim source panics once draining is on and both the claim and pod lists succeeded. A listed job's panics once all four observations succeeded. It also happens when a claim without `-` in its name reaches the job name: its placeholder went through and every extra volume applied. A failed placeholder or extra volume returns before that, and the model accepts those claims.
- DrainJob.JobName: requires a `-` in the claim name. With none the Go slice `[-1:]` panics.
- Observe.DrainableClaims: states membership only, not that list order is kept. The function keeps it.
- ConfigCheck.ConfigCheckPhase: the source assigns into `r.Logging.Status.ConfigCheckResults` (pkg/resources/syslogng/syslogng.go:165), which panics in Go when that map is nil, as in a fresh status. The model assumes an initialised map (a Dafny `map` is never nil), so that panic is not modelled.
- ConfigCheck.PendingVerdictRetriesAfterAMinute: the delay `time.Minute` is counted in seconds (60), not in Go nanoseconds.
- Integer widths: replica counts and failure counts are `int32` in Go and unbounded here. The loops cannot wrap around at the values they reach.
