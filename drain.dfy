/** reconcileDrain: one pass of the buffer-volume drain coordinator. The pass observes the
    drainable claims, the statefulset pods, the replica count and the drainer jobs once, then
    walks the claims in list order and makes each claim's calls on the store, folding every
    claim's errors and requeue requests into one combined result. */
module Drain {
  import opened Wrappers
  import opened Kube
  import opened Api
  import opened Observe
  import opened Coordinator
  import DrainJob

  /** What the cluster answers during one pass: the three list calls (claims and pods carrying the
      syslog-ng labels, jobs carrying the drainer labels; the claims' drain requirement is applied
      by the pass itself), GetReplicaCount, and the reply to every mutating call. */
  datatype Env = Env(
    claims: Result<seq<PersistentVolumeClaim>, StoreError>,
    pods: Result<seq<Pod>, StoreError>,
    replicas: Result<Option<int>, StoreError>,
    jobs: Result<seq<Job>, StoreError>,
    respond: Op -> Reply)

  /** The Kubernetes API as one pass sees it: fixed answers, and a journal of every mutating call
      in the order it was made. */
  class Store {
    const env: Env
    var journal: seq<Op>

    constructor (env: Env)
      ensures this.env == env && journal == []
    {
      this.env := env;
      journal := [];
    }

    method Patch(claim: string, labels: Labels) returns (err: Option<StoreError>)
      modifies this
      ensures journal == old(journal) + [PatchLabels(claim, labels)]
      ensures err == env.respond(PatchLabels(claim, labels)).err
    {
      journal := journal + [PatchLabels(claim, labels)];
      err := env.respond(PatchLabels(claim, labels)).err;
    }

    method Delete(job: string, propagation: Propagation) returns (err: Option<StoreError>)
      modifies this
      ensures journal == old(journal) + [DeleteJob(job, propagation)]
      ensures err == env.respond(DeleteJob(job, propagation)).err
    {
      journal := journal + [DeleteJob(job, propagation)];
      err := env.respond(DeleteJob(job, propagation)).err;
    }

    method ReconcileResource(desired: Desired, state: DesiredState) returns (res: Option<RequeueResult>, err: Option<StoreError>)
      modifies this
      ensures journal == old(journal) + [ReconcileObject(desired, state)]
      ensures res == env.respond(ReconcileObject(desired, state)).result
      ensures err == env.respond(ReconcileObject(desired, state)).err
    {
      journal := journal + [ReconcileObject(desired, state)];
      var reply := env.respond(ReconcileObject(desired, state));
      res, err := reply.result, reply.err;
    }
  }

  /** The observations the claim loop decides from, all taken before the loop. */
  datatype Snapshot = Snapshot(bufVolName: string, stsName: string, pods: seq<Pod>, replicas: int, jobs: seq<Job>)

  /** pvcsInUse[claim]: a pod mounts it, or it is the claim of an ordinal below the replica count. */
  predicate InUse(s: Snapshot, claim: string) {
    ClaimedByPod(s.pods, s.bufVolName, claim) || IsOrdinalClaim(claim, s.bufVolName, s.stsName, s.replicas)
  }

  /** jobOfPVC[claim] */
  function JobOf(s: Snapshot, claim: string): Option<Job> {
    LastJobFor(s.jobs, s.bufVolName, claim)
  }

  predicate ClaimsNameable(lg: Logging, b: DrainJob.Builders, respond: Op -> Reply, s: Snapshot, claims: seq<PersistentVolumeClaim>) {
    forall k :: 0 <= k < |claims| ==> ClaimNameable(lg, b, respond, claims[k], InUse(s, claims[k].name), JobOf(s, claims[k].name))
  }

  function RunClaim(lg: Logging, b: DrainJob.Builders, respond: Op -> Reply, s: Snapshot, pvc: PersistentVolumeClaim): Trace
    requires ClaimNameable(lg, b, respond, pvc, InUse(s, pvc.name), JobOf(s, pvc.name))
  {
    ClaimRun(lg, b, respond, pvc, InUse(s, pvc.name), JobOf(s, pvc.name))
  }

  /** The claim loop: each claim's run, in list order, whatever the earlier claims' runs did. */
  function ClaimTraces(lg: Logging, b: DrainJob.Builders, respond: Op -> Reply, s: Snapshot, claims: seq<PersistentVolumeClaim>)
    : (ts: seq<Trace>)
    requires ClaimsNameable(lg, b, respond, s, claims)
    ensures |ts| == |claims|
    ensures forall k :: 0 <= k < |claims| ==> ts[k] == RunClaim(lg, b, respond, s, claims[k])
  {
    seq(|claims|, k requires 0 <= k < |claims| => RunClaim(lg, b, respond, s, claims[k]))
  }

  function SnapshotOf(lg: Logging, env: Env): Snapshot
    requires env.pods.Ok? && env.replicas.Ok? && env.jobs.Ok?
  {
    Snapshot(BufferVolumeName(lg), QualifiedStatefulSetName(lg), env.pods.value,
      ReplicaCountOrZero(env.replicas.value), env.jobs.value)
  }

  /** What the source demands of the cluster, each only on the path that reaches it (otherwise the
      Go code panics): a listed pod's buffer volume is claim-backed once the pods are read, a listed
      job's once the jobs are read, and a claim whose drainer job is built after its placeholder
      went through has a '-' in its name unless an extra volume fails first. */
  predicate Admissible(lg: Logging, b: DrainJob.Builders, env: Env) {
    && (!DrainDisabled(lg) && env.claims.Ok? && env.pods.Ok? ==>
          PodsWellFormed(env.pods.value, BufferVolumeName(lg)))
    && (!DrainDisabled(lg) && env.claims.Ok? && env.pods.Ok? && env.replicas.Ok? && env.jobs.Ok? ==>
          JobsWellFormed(env.jobs.value, BufferVolumeName(lg)))
    && (!DrainDisabled(lg) && env.claims.Ok? && env.pods.Ok? && env.replicas.Ok? && env.jobs.Ok? ==>
          ClaimsNameable(lg, b, env.respond, SnapshotOf(lg, env), DrainableClaims(env.claims.value)))
  }

  /** What a pass returns: the calls it made, a result that is non-nil exactly when some
      requeue was requested, and the combined error (nil when the list is empty). */
  datatype PassOutcome = PassOutcome(ops: seq<Op>, result: Option<RequeueResult>, errs: seq<DrainError>)

  predicate DrainDisabled(lg: Logging) {
    lg.spec.disablePvc || !lg.spec.drain.enabled
  }

  /** The pass: nothing when draining is off, the first failed observation as the only error,
      and otherwise every claim's run in list order; the result is nil rather than zero. */
  function Pass(lg: Logging, b: DrainJob.Builders, env: Env): (r: PassOutcome)
    requires Admissible(lg, b, env)
    ensures r.result.Some? ==> !r.result.value.IsZero()
    ensures DrainDisabled(lg) || env.claims.Err? || env.pods.Err? || env.replicas.Err? || env.jobs.Err? ==>
      r.ops == [] && r.result.None? && |r.errs| <= 1
  {
    if DrainDisabled(lg) then PassOutcome([], None, [])
    else if env.claims.Err? then PassOutcome([], None, [ListingFailed(ClaimList, env.claims.error)])
    else if env.pods.Err? then PassOutcome([], None, [ListingFailed(PodList, env.pods.error)])
    else if env.replicas.Err? then PassOutcome([], None, [ReplicaCountFailed(env.replicas.error)])
    else if env.jobs.Err? then PassOutcome([], None, [ListingFailed(JobList, env.jobs.error)])
    else
      var t := ConcatAll(ClaimTraces(lg, b, env.respond, SnapshotOf(lg, env), DrainableClaims(env.claims.value)));
      var merged := MergeAll(NoRequeue, t.results);
      PassOutcome(t.ops, if merged.IsZero() then None else Some(merged), t.errs)
  }

  /** A drained claim in use again: the drained label is taken off. */
  method UnmarkClaim(store: Store, pvc: PersistentVolumeClaim, cr: Combined) returns (next: Combined)
    modifies store
    ensures store.journal == old(store.journal) + Run(RemoveLabelSteps(pvc), store.env.respond).ops
    ensures next == cr.Absorb(Run(RemoveLabelSteps(pvc), store.env.respond))
  {
    RunStep(RemoveLabelSteps(pvc), store.env.respond);
    var err := store.Patch(pvc.name, pvc.labels - {DrainStatusLabelKey});
    var e := IgnoreNotFound(err);
    next := cr.CombineErr(if e.Some? then Some(StepFailed(RemovingDrainedLabelFromClaim, e.value)) else None);
  }

  /** The drainer job succeeded: label the claim drained, delete the job, free the placeholder. */
  method CompleteDrain(store: Store, pvc: PersistentVolumeClaim, job: Job, cr: Combined) returns (next: Combined)
    modifies store
    ensures store.journal == old(store.journal) + Run(FinishSteps(pvc, job), store.env.respond).ops
    ensures next == cr.Absorb(Run(FinishSteps(pvc, job), store.env.respond))
  {
    ghost var steps := FinishSteps(pvc, job);
    ghost var respond := store.env.respond;
    RunStep(steps, respond);
    var err := store.Patch(pvc.name, pvc.labels[DrainStatusLabelKey := DrainStatusLabelValue]);
    if IgnoreNotFound(err).Some? {
      next := cr.CombineErr(Some(StepFailed(MarkingClaimAsDrained, err.value)));
      return;
    }
    RunStep(steps[1..], respond);
    err := store.Delete(job.meta.name, Background);
    if IgnoreNotFound(err).Some? {
      next := cr.CombineErr(Some(StepFailed(DeletingCompletedJob, err.value)));
      return;
    }
    assert steps[1..][1..] == steps[2..];
    RunStep(steps[2..], respond);
    assert steps[2..][1..] == [];
    var res, perr := store.ReconcileResource(PlaceholderPod(pvc.name), StateAbsent);
    ghost var t := Run(steps, respond);
    if perr.Some? {
      assert t.errs == [StepFailed(RemovingPlaceholder(pvc.name), perr.value)];
      assert t.results == OptionToSeq(res);
      next := cr.Combine(res, Some(StepFailed(RemovingPlaceholder(pvc.name), perr.value)));
      CombineIsAbsorb(cr, t.ops, res, Some(StepFailed(RemovingPlaceholder(pvc.name), perr.value)));
      return;
    }
    next := cr;
  }

  /** A claim needed again while its drainer runs: delete the job, free the placeholder. */
  method CancelDrainer(store: Store, pvc: PersistentVolumeClaim, job: Job, cr: Combined) returns (next: Combined)
    modifies store
    ensures store.journal == old(store.journal) + Run(CancelSteps(pvc, job), store.env.respond).ops
    ensures next == cr.Absorb(Run(CancelSteps(pvc, job), store.env.respond))
  {
    ghost var steps := CancelSteps(pvc, job);
    ghost var respond := store.env.respond;
    RunStep(steps, respond);
    var err := store.Delete(job.meta.name, Foreground);
    if IgnoreNotFound(err).Some? {
      next := cr.CombineErr(Some(StepFailed(DeletingUnnecessaryJob, err.value)));
      return;
    }
    RunStep(steps[1..], respond);
    assert steps[1..][1..] == [];
    var res, perr := store.ReconcileResource(PlaceholderPod(pvc.name), StateAbsent);
    ghost var t := Run(steps, respond);
    if perr.Some? {
      assert t.errs == [StepFailed(RemovingPlaceholder(pvc.name), perr.value)];
      assert t.results == OptionToSeq(res);
      next := cr.Combine(res, Some(StepFailed(RemovingPlaceholder(pvc.name), perr.value)));
      CombineIsAbsorb(cr, t.ops, res, Some(StepFailed(RemovingPlaceholder(pvc.name), perr.value)));
      return;
    }
    next := cr;
  }

  /** An idle, undrained claim without a job: reserve its placeholder, then create its drainer. */
  method StartDrainer(store: Store, lg: Logging, b: DrainJob.Builders, pvc: PersistentVolumeClaim, cr: Combined) returns (next: Combined)
    requires StartReady(lg, b, store.env.respond, pvc)
    modifies store
    ensures store.journal == old(store.journal) + Run(StartSteps(lg, b, store.env.respond, pvc), store.env.respond).ops
    ensures next == cr.Absorb(Run(StartSteps(lg, b, store.env.respond, pvc), store.env.respond))
  {
    ghost var steps := StartSteps(lg, b, store.env.respond, pvc);
    ghost var respond := store.env.respond;
    RunStep(steps, respond);
    var res, perr := store.ReconcileResource(PlaceholderPod(pvc.name), StatePresent);
    if perr.Some? {
      ghost var t := Run(steps, respond);
      assert t.errs == [StepFailed(EnsuringPlaceholder(pvc.name), perr.value)];
      assert t.results == OptionToSeq(res);
      next := cr.Combine(res, Some(StepFailed(EnsuringPlaceholder(pvc.name), perr.value)));
      CombineIsAbsorb(cr, t.ops, res, Some(StepFailed(EnsuringPlaceholder(pvc.name), perr.value)));
      return;
    }
    var built := DrainJob.DrainerJobFor(lg, b, pvc);
    if built.Err? {
      assert steps[1..] == [Raise(AssemblingJob(built.error))];
      next := cr.CombineErr(Some(AssemblingJob(built.error)));
    } else {
      assert steps[1..] == [Invoke(ReconcileObject(DrainerJobObject(built.value), StatePresent), CombineAll)];
      RunStep(steps[1..], respond);
      assert steps[1..][1..] == [];
      var jres, jerr := store.ReconcileResource(DrainerJobObject(built.value), StatePresent);
      ghost var t := Run(steps, respond);
      assert t.results == OptionToSeq(jres);
      next := cr.Combine(jres, if jerr.Some? then Some(JobReconcileFailed(jerr.value)) else None);
      CombineIsAbsorb(cr, t.ops, jres, if jerr.Some? then Some(JobReconcileFailed(jerr.value)) else None);
    }
  }

  /** The body of the claim loop: the source's if-chain, first match wins (`continue` there). */
  method ReconcileClaim(store: Store, lg: Logging, b: DrainJob.Builders, pvc: PersistentVolumeClaim,
                        inUse: bool, job: Option<Job>, cr: Combined) returns (next: Combined)
    requires ClaimNameable(lg, b, store.env.respond, pvc, inUse, job)
    modifies store
    ensures store.journal == old(store.journal) + ClaimRun(lg, b, store.env.respond, pvc, inUse, job).ops
    ensures next == cr.Absorb(ClaimRun(lg, b, store.env.respond, pvc, inUse, job))
  {
    var drained := MarkedAsDrained(pvc);
    if drained && inUse {
      next := UnmarkClaim(store, pvc, cr);
      return;
    }
    var hasJob := job.Some?;
    if hasJob && JobSuccessfullyCompleted(job.value) {
      next := CompleteDrain(store, pvc, job.value, cr);
      return;
    }
    if inUse && hasJob {
      next := CancelDrainer(store, pvc, job.value, cr);
      return;
    }
    if hasJob && !JobSuccessfullyCompleted(job.value) {
      if job.value.status.failed > 0 {
        next := cr.CombineErr(Some(DrainingFailed(pvc.name, job.value.status.failed)));
      } else {
        next := cr;
      }
      return;
    }
    if !drained && !inUse && !hasJob {
      next := StartDrainer(store, lg, b, pvc, cr);
      return;
    }
    next := cr;
  }

  /** The journal after one more claim is the journal after the claims before it, then that claim's calls. */
  lemma JournalStep(start: seq<Op>, before: seq<Op>, after: seq<Op>, ts: seq<Trace>, i: nat)
    requires i < |ts|
    requires before == start + ConcatAll(ts[..i]).ops && after == before + ts[i].ops
    ensures after == start + ConcatAll(ts[..i + 1]).ops
  {
    assert ts[..i + 1][..i] == ts[..i];
    assert (start + ConcatAll(ts[..i]).ops) + ts[i].ops == start + (ConcatAll(ts[..i]).ops + ts[i].ops);
  }

  /** The facts the claim loop reads from pvcsInUse and jobOfPVC, as the snapshot states them. */
  ghost predicate Indexed(s: Snapshot, pvcsInUse: map<string, bool>, jobOfPVC: map<string, Job>) {
    && (forall n :: (n in pvcsInUse && pvcsInUse[n]) <==> InUse(s, n))
    && (forall n :: n in jobOfPVC <==> JobOf(s, n).Some?)
    && (forall n :: n in jobOfPVC ==> jobOfPVC[n] == JobOf(s, n).value)
  }

  /** One turn of the claim loop: look the claim up in both maps, then run its branch. */
  method ReconcileListed(store: Store, lg: Logging, b: DrainJob.Builders, ghost s: Snapshot,
                         pvc: PersistentVolumeClaim, pvcsInUse: map<string, bool>, jobOfPVC: map<string, Job>, cr: Combined)
    returns (next: Combined)
    requires Indexed(s, pvcsInUse, jobOfPVC)
    requires ClaimNameable(lg, b, store.env.respond, pvc, InUse(s, pvc.name), JobOf(s, pvc.name))
    modifies store
    ensures store.journal == old(store.journal) + RunClaim(lg, b, store.env.respond, s, pvc).ops
    ensures next == cr.Absorb(RunClaim(lg, b, store.env.respond, s, pvc))
  {
    var inUse := pvc.name in pvcsInUse && pvcsInUse[pvc.name];
    var job := if pvc.name in jobOfPVC then Some(jobOfPVC[pvc.name]) else None;
    assert inUse == InUse(s, pvc.name);
    assert job == JobOf(s, pvc.name);
    next := ReconcileClaim(store, lg, b, pvc, inUse, job, cr);
  }

  /** The claim loop of reconcileDrain, over the in-use map and the job map built before it. */
  method ReconcileClaims(store: Store, lg: Logging, b: DrainJob.Builders, ghost s: Snapshot,
                         pvcList: seq<PersistentVolumeClaim>, pvcsInUse: map<string, bool>, jobOfPVC: map<string, Job>)
    returns (cr: Combined)
    requires ClaimsNameable(lg, b, store.env.respond, s, pvcList)
    requires Indexed(s, pvcsInUse, jobOfPVC)
    modifies store
    ensures store.journal == old(store.journal) + ConcatAll(ClaimTraces(lg, b, store.env.respond, s, pvcList)).ops
    ensures cr == EmptyCombined.Absorb(ConcatAll(ClaimTraces(lg, b, store.env.respond, s, pvcList)))
  {
    ghost var ts := ClaimTraces(lg, b, store.env.respond, s, pvcList);
    cr := EmptyCombined;
    var i := 0;
    while i < |pvcList|
      invariant 0 <= i <= |pvcList|
      invariant store.journal == old(store.journal) + ConcatAll(ts[..i]).ops
      invariant cr == EmptyCombined.Absorb(ConcatAll(ts[..i]))
    {
      assert ts[..i + 1][..i] == ts[..i];
      AbsorbConcat(EmptyCombined, ConcatAll(ts[..i]), ts[i]);
      ghost var before := store.journal;
      cr := ReconcileListed(store, lg, b, s, pvcList[i], pvcsInUse, jobOfPVC, cr);
      JournalStep(old(store.journal), before, store.journal, ts, i);
      i := i + 1;
    }
    assert ts[..i] == ts;
  }

  /** reconcileDrain */
  method ReconcileDrain(store: Store, lg: Logging, b: DrainJob.Builders) returns (res: Option<RequeueResult>, errs: seq<DrainError>)
    requires Admissible(lg, b, store.env)
    modifies store
    ensures store.journal == old(store.journal) + Pass(lg, b, store.env).ops
    ensures res == Pass(lg, b, store.env).result
    ensures errs == Pass(lg, b, store.env).errs
  {
    if lg.spec.disablePvc || !lg.spec.drain.enabled {
      return None, [];
    }
    var env := store.env;

    if env.claims.Err? {
      return None, [ListingFailed(ClaimList, env.claims.error)];
    }
    var pvcList := DrainableClaims(env.claims.value);

    if env.pods.Err? {
      return None, [ListingFailed(PodList, env.pods.error)];
    }
    var bufVolName := BufferVolumeName(lg);
    var pvcsInUse := MarkPodClaims(env.pods.value, bufVolName);

    if env.replicas.Err? {
      return None, [ReplicaCountFailed(env.replicas.error)];
    }
    pvcsInUse := MarkOrdinalClaims(pvcsInUse, bufVolName, QualifiedStatefulSetName(lg), ReplicaCountOrZero(env.replicas.value));

    if env.jobs.Err? {
      return None, [ListingFailed(JobList, env.jobs.error)];
    }
    var jobOfPVC := IndexJobs(env.jobs.value, bufVolName);

    ghost var s := SnapshotOf(lg, env);
    var cr := ReconcileClaims(store, lg, b, s, pvcList, pvcsInUse, jobOfPVC);
    MergeAllIsZero(NoRequeue, ConcatAll(ClaimTraces(lg, b, env.respond, s, pvcList)).results);
    res := if cr.result.IsZero() then None else Some(cr.result);
    errs := cr.errs;
  }
}
