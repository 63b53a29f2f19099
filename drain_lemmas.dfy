/** Properties of one drain pass: what it leaves alone, which calls each claim gets and in what
    order, how claims' runs add up to the pass, and why a second pass does not start a second
    drainer for the same claim. */
module DrainLemmas {
  import opened Wrappers
  import opened Kube
  import opened Api
  import opened Observe
  import opened Coordinator
  import opened DrainJob
  import opened Drain

  predicate Observed(env: Env) {
    env.claims.Ok? && env.pods.Ok? && env.replicas.Ok? && env.jobs.Ok?
  }

  /** With draining off, or any of the four observations failing, the pass makes no call and asks
      for no requeue; only a failed observation reports an error, and it names what failed. */
  lemma QuietWhenDisabledOrUnobserved(lg: Logging, b: Builders, env: Env)
    requires Admissible(lg, b, env)
    requires DrainDisabled(lg) || !Observed(env)
    ensures Pass(lg, b, env).ops == [] && Pass(lg, b, env).result == None
    ensures DrainDisabled(lg) ==> Pass(lg, b, env).errs == []
    ensures !DrainDisabled(lg) ==> |Pass(lg, b, env).errs| == 1
    ensures !DrainDisabled(lg) && env.claims.Err? ==> Pass(lg, b, env).errs == [ListingFailed(ClaimList, env.claims.error)]
    ensures !DrainDisabled(lg) && env.claims.Ok? && env.pods.Err? ==> Pass(lg, b, env).errs == [ListingFailed(PodList, env.pods.error)]
    ensures !DrainDisabled(lg) && env.claims.Ok? && env.pods.Ok? && env.replicas.Err? ==>
      Pass(lg, b, env).errs == [ReplicaCountFailed(env.replicas.error)]
    ensures !DrainDisabled(lg) && env.claims.Ok? && env.pods.Ok? && env.replicas.Ok? && env.jobs.Err? ==>
      Pass(lg, b, env).errs == [ListingFailed(JobList, env.jobs.error)]
  {
  }

  /** A disabled pass, or one whose claim or pod listing failed, demands nothing of the listed pods,
      jobs or claims: the source returns before it reads them. */
  lemma EarlyReturnDemandsNothing(lg: Logging, b: Builders, env: Env)
    requires DrainDisabled(lg) || env.claims.Err? || env.pods.Err?
    ensures Admissible(lg, b, env)
  {
  }

  /** Traces concatenated in two halves are the two halves' concatenations, concatenated. */
  lemma {:induction false} ConcatAllAppend(xs: seq<Trace>, ys: seq<Trace>)
    ensures ConcatAll(xs + ys) == Concat(ConcatAll(xs), ConcatAll(ys))
    decreases |ys|
  {
    if ys == [] {
      assert xs + ys == xs;
      assert ConcatAll(xs).ops + [] == ConcatAll(xs).ops;
      assert ConcatAll(xs).errs + [] == ConcatAll(xs).errs;
      assert ConcatAll(xs).results + [] == ConcatAll(xs).results;
    } else {
      var n := |ys| - 1;
      assert (xs + ys)[..|xs + ys| - 1] == xs + ys[..n];
      assert (xs + ys)[|xs + ys| - 1] == ys[n];
      ConcatAllAppend(xs, ys[..n]);
      var a, c, d := ConcatAll(xs), ConcatAll(ys[..n]), ys[n];
      assert (a.ops + c.ops) + d.ops == a.ops + (c.ops + d.ops);
      assert (a.errs + c.errs) + d.errs == a.errs + (c.errs + d.errs);
      assert (a.results + c.results) + d.results == a.results + (c.results + d.results);
    }
  }

  /** Splitting traces in sequence around one of them. */
  lemma ConcatAllAround(ts: seq<Trace>, k: nat)
    requires k < |ts|
    ensures ConcatAll(ts) == Concat(Concat(ConcatAll(ts[..k]), ts[k]), ConcatAll(ts[k + 1..]))
  {
    assert ts == ts[..k + 1] + ts[k + 1..];
    ConcatAllAppend(ts[..k + 1], ts[k + 1..]);
    assert ts[..k + 1][..k] == ts[..k];
  }

  /** A failing claim does not stop the loop: every claim gets its whole run, after the runs of
      the claims before it and before the runs of the claims after it. */
  lemma EveryClaimRuns(lg: Logging, b: Builders, respond: Op -> Reply, s: Snapshot, claims: seq<PersistentVolumeClaim>, k: nat)
    requires ClaimsNameable(lg, b, respond, s, claims) && k < |claims|
    ensures ClaimNameable(lg, b, respond, claims[k], InUse(s, claims[k].name), JobOf(s, claims[k].name))
    ensures var ts := ClaimTraces(lg, b, respond, s, claims);
      ConcatAll(ts) == Concat(Concat(ConcatAll(ts[..k]), RunClaim(lg, b, respond, s, claims[k])), ConcatAll(ts[k + 1..]))
  {
    ConcatAllAround(ClaimTraces(lg, b, respond, s, claims), k);
  }

  /** A call is in traces in sequence exactly when it is in one of the traces. */
  lemma {:induction false} ConcatAllOps(ts: seq<Trace>, op: Op)
    ensures op in ConcatAll(ts).ops <==> exists k :: 0 <= k < |ts| && op in ts[k].ops
    decreases |ts|
  {
    if ts != [] {
      var n := |ts| - 1;
      ConcatAllOps(ts[..n], op);
      if k :| 0 <= k < |ts| && op in ts[k].ops {
        if k < n {
          assert ts[..n][k] == ts[k];
        }
      }
      if op in ConcatAll(ts[..n]).ops {
        var k :| 0 <= k < n && op in ts[..n][k].ops;
        assert ts[..n][k] == ts[k];
      }
    }
  }

  /** An error is in traces in sequence exactly when it is in one of the traces. */
  lemma {:induction false} ConcatAllErrs(ts: seq<Trace>, e: DrainError)
    ensures e in ConcatAll(ts).errs <==> exists k :: 0 <= k < |ts| && e in ts[k].errs
    decreases |ts|
  {
    if ts != [] {
      var n := |ts| - 1;
      ConcatAllErrs(ts[..n], e);
      if k :| 0 <= k < |ts| && e in ts[k].errs {
        if k < n {
          assert ts[..n][k] == ts[k];
        }
      }
      if e in ConcatAll(ts[..n]).errs {
        var k :| 0 <= k < n && e in ts[..n][k].errs;
        assert ts[..n][k] == ts[k];
      }
    }
  }

  /** A requeue request is in traces in sequence exactly when it is in one of the traces. */
  lemma {:induction false} ConcatAllResults(ts: seq<Trace>, r: RequeueResult)
    ensures r in ConcatAll(ts).results <==> exists k :: 0 <= k < |ts| && r in ts[k].results
    decreases |ts|
  {
    if ts != [] {
      var n := |ts| - 1;
      ConcatAllResults(ts[..n], r);
      if k :| 0 <= k < |ts| && r in ts[k].results {
        if k < n {
          assert ts[..n][k] == ts[k];
        }
      }
      if r in ConcatAll(ts[..n]).results {
        var k :| 0 <= k < n && r in ts[..n][k].results;
        assert ts[..n][k] == ts[k];
      }
    }
  }

  /** Merged over traces in sequence, the requeue requests stay zero exactly when every trace's
      requests are zero; the errors are empty exactly when every trace's are. */
  lemma ConcatAllZero(ts: seq<Trace>)
    ensures !MergeAll(NoRequeue, ConcatAll(ts).results).IsZero() <==> exists k, r :: 0 <= k < |ts| && r in ts[k].results && !r.IsZero()
    ensures ConcatAll(ts).errs == [] <==> forall k :: 0 <= k < |ts| ==> ts[k].errs == []
  {
    var t := ConcatAll(ts);
    MergeAllIsZero(NoRequeue, t.results);
    if !MergeAll(NoRequeue, t.results).IsZero() {
      var j :| 0 <= j < |t.results| && !t.results[j].IsZero();
      ConcatAllResults(ts, t.results[j]);
    }
    forall k, r | 0 <= k < |ts| && r in ts[k].results && !r.IsZero()
      ensures !MergeAll(NoRequeue, t.results).IsZero()
    {
      ConcatAllResults(ts, r);
    }
    if t.errs != [] {
      ConcatAllErrs(ts, t.errs[0]);
    }
    forall k | 0 <= k < |ts| && ts[k].errs != []
      ensures t.errs != []
    {
      ConcatAllErrs(ts, ts[k].errs[0]);
    }
  }

  /** The pass returns a non-nil result exactly when some claim's run asked for a requeue, and no
      error exactly when no claim's run failed. */
  lemma PassResultReflectsClaims(lg: Logging, b: Builders, env: Env)
    requires Admissible(lg, b, env) && !DrainDisabled(lg) && Observed(env)
    ensures var claims := DrainableClaims(env.claims.value);
      var ts := ClaimTraces(lg, b, env.respond, SnapshotOf(lg, env), claims);
      && (Pass(lg, b, env).result.Some? <==> exists k, r :: 0 <= k < |ts| && r in ts[k].results && !r.IsZero())
      && (Pass(lg, b, env).errs == [] <==> forall k :: 0 <= k < |ts| ==> ts[k].errs == [])
  {
    ConcatAllZero(ClaimTraces(lg, b, env.respond, SnapshotOf(lg, env), DrainableClaims(env.claims.value)));
  }

  /** A drained claim that is in use again: the label patch is the only call. */
  lemma DrainedInUseOnlyRemovesLabel(lg: Logging, b: Builders, respond: Op -> Reply, pvc: PersistentVolumeClaim, job: Option<Job>)
    requires MarkedAsDrained(pvc)
    ensures ClaimNameable(lg, b, respond, pvc, true, job)
    ensures var t := ClaimRun(lg, b, respond, pvc, true, job);
      var patch := PatchLabels(pvc.name, pvc.labels - {DrainStatusLabelKey});
      && t.ops == [patch]
      && t.results == []
      && (t.errs == [] <==> IgnoreNotFound(respond(patch).err).None?)
      && (t.errs != [] ==> t.errs == [StepFailed(RemovingDrainedLabelFromClaim, respond(patch).err.value)])
  {
    RunStep(RemoveLabelSteps(pvc), respond);
  }

  /** A claim whose drainer succeeded is labelled drained, then its job is deleted in the
      background, then its placeholder is removed; a failed call skips the calls after it. */
  lemma FinishDrainOrder(lg: Logging, b: Builders, respond: Op -> Reply, pvc: PersistentVolumeClaim, inUse: bool, job: Job)
    requires !(MarkedAsDrained(pvc) && inUse) && JobSuccessfullyCompleted(job)
    ensures ClaimNameable(lg, b, respond, pvc, inUse, Some(job))
    ensures var t := ClaimRun(lg, b, respond, pvc, inUse, Some(job));
      var mark := PatchLabels(pvc.name, pvc.labels[DrainStatusLabelKey := DrainStatusLabelValue]);
      var delete := DeleteJob(job.meta.name, Background);
      var free := ReconcileObject(PlaceholderPod(pvc.name), StateAbsent);
      && 1 <= |t.ops| <= 3
      && t.ops == [mark, delete, free][..|t.ops|]
      && (|t.ops| >= 2 <==> IgnoreNotFound(respond(mark).err).None?)
      && (|t.ops| == 3 <==> IgnoreNotFound(respond(mark).err).None? && IgnoreNotFound(respond(delete).err).None?)
      && (t.errs == [] <==> |t.ops| == 3 && respond(free).err.None?)
      && t.results == (if |t.ops| == 3 && respond(free).err.Some? then OptionToSeq(respond(free).result) else [])
  {
    var steps := FinishSteps(pvc, job);
    RunStep(steps, respond);
    RunStep(steps[1..], respond);
    assert steps[1..][1..] == steps[2..];
    RunStep(steps[2..], respond);
    assert steps[2..][1..] == [];
  }

  /** A claim taken back into use while its drainer runs: the job is deleted in the foreground,
      then the placeholder is removed, and only if the delete went through. */
  lemma CancelDrainOrder(lg: Logging, b: Builders, respond: Op -> Reply, pvc: PersistentVolumeClaim, job: Job)
    requires !MarkedAsDrained(pvc) && !JobSuccessfullyCompleted(job)
    ensures ClaimNameable(lg, b, respond, pvc, true, Some(job))
    ensures var t := ClaimRun(lg, b, respond, pvc, true, Some(job));
      var delete := DeleteJob(job.meta.name, Foreground);
      var free := ReconcileObject(PlaceholderPod(pvc.name), StateAbsent);
      && 1 <= |t.ops| <= 2
      && t.ops == [delete, free][..|t.ops|]
      && (|t.ops| == 2 <==> IgnoreNotFound(respond(delete).err).None?)
      && (t.errs == [] <==> |t.ops| == 2 && respond(free).err.None?)
      && t.results == (if |t.ops| == 2 && respond(free).err.Some? then OptionToSeq(respond(free).result) else [])
  {
    var steps := CancelSteps(pvc, job);
    RunStep(steps, respond);
    RunStep(steps[1..], respond);
    assert steps[1..][1..] == [];
  }

  /** An idle claim whose drainer has not succeeded is left alone: a failed drainer is reported with
      its attempt count, a running one not at all. */
  lemma UnfinishedDrainOnIdleClaim(lg: Logging, b: Builders, respond: Op -> Reply, pvc: PersistentVolumeClaim, job: Job)
    requires !JobSuccessfullyCompleted(job)
    ensures ClaimNameable(lg, b, respond, pvc, false, Some(job))
    ensures var t := ClaimRun(lg, b, respond, pvc, false, Some(job));
      && t.ops == [] && t.results == []
      && t.errs == (if job.status.failed > 0 then [DrainingFailed(pvc.name, job.status.failed)] else [])
  {
  }

  /** An idle, undrained claim without a job: its placeholder is ensured first, and the drainer job
      built for it is handed to the reconciler only when that went through and the job could be
      assembled. A failed placeholder keeps the reconciler's result; a successful one does not,
      while the job's reconcile always contributes its result. */
  lemma StartDrainOrder(lg: Logging, b: Builders, respond: Op -> Reply, pvc: PersistentVolumeClaim)
    requires !MarkedAsDrained(pvc) && StartReady(lg, b, respond, pvc)
    ensures ClaimNameable(lg, b, respond, pvc, false, None)
    ensures var t := ClaimRun(lg, b, respond, pvc, false, None);
      var reserve := ReconcileObject(PlaceholderPod(pvc.name), StatePresent);
      && 1 <= |t.ops| <= 2
      && t.ops[0] == reserve
      && (respond(reserve).err.Some? ==>
            && |t.ops| == 1
            && t.errs == [StepFailed(EnsuringPlaceholder(pvc.name), respond(reserve).err.value)]
            && t.results == OptionToSeq(respond(reserve).result))
      && (respond(reserve).err.None? ==>
            var built := DrainerJob(lg, b, pvc);
            && (|t.ops| == 2 <==> built.Ok?)
            && (built.Err? ==> t.errs == [AssemblingJob(built.error)] && t.results == [])
            && (built.Ok? ==>
                  var create := ReconcileObject(DrainerJobObject(built.value), StatePresent);
                  && t.ops[1] == create
                  && t.results == OptionToSeq(respond(create).result)
                  && t.errs == (if respond(create).err.Some? then [JobReconcileFailed(respond(create).err.value)] else [])))
  {
    var steps := StartSteps(lg, b, respond, pvc);
    RunStep(steps, respond);
    if respond(steps[0].op).err.None? {
      var built := DrainerJob(lg, b, pvc);
      if built.Ok? {
        assert steps[1..] == [Invoke(ReconcileObject(DrainerJobObject(built.value), StatePresent), CombineAll)];
        RunStep(steps[1..], respond);
        assert steps[1..][1..] == [];
      } else {
        assert steps[1..] == [Raise(AssemblingJob(built.error))];
      }
    }
  }

  /** The only way a claim's run hands a drainer job to the reconciler: the claim is undrained,
      idle and has no job, its placeholder went through first, and the job is the one built for it. */
  lemma JobOnlyForIdleClaim(lg: Logging, b: Builders, respond: Op -> Reply, pvc: PersistentVolumeClaim,
                            inUse: bool, job: Option<Job>, j: Job)
    requires ClaimNameable(lg, b, respond, pvc, inUse, job)
    requires ReconcileObject(DrainerJobObject(j), StatePresent) in ClaimRun(lg, b, respond, pvc, inUse, job).ops
    ensures !MarkedAsDrained(pvc) && !inUse && job.None?
    ensures respond(ReconcileObject(PlaceholderPod(pvc.name), StatePresent)).err.None?
    ensures DrainerJob(lg, b, pvc) == Ok(j) && HasSeparator(pvc.name)
    ensures ClaimRun(lg, b, respond, pvc, inUse, job).ops ==
      [ReconcileObject(PlaceholderPod(pvc.name), StatePresent), ReconcileObject(DrainerJobObject(j), StatePresent)]
  {
    var drained := MarkedAsDrained(pvc);
    if drained && inUse {
      DrainedInUseOnlyRemovesLabel(lg, b, respond, pvc, job);
      assert false;
    } else if job.Some? && JobSuccessfullyCompleted(job.value) {
      FinishDrainOrder(lg, b, respond, pvc, inUse, job.value);
      assert false;
    } else if job.Some? && inUse {
      CancelDrainOrder(lg, b, respond, pvc, job.value);
      assert false;
    } else if job.Some? {
      UnfinishedDrainOnIdleClaim(lg, b, respond, pvc, job.value);
      assert false;
    } else if drained || inUse {
      assert false;
    } else {
      StartDrainOrder(lg, b, respond, pvc);
    }
  }

  /** Across the whole pass: every drainer job handed to the reconciler belongs to a drainable
      claim that is undrained, not in use and without a listed job, whose placeholder was ensured
      first, and it is the job built for that claim. */
  lemma JobCreatedOnlyForIdleClaims(lg: Logging, b: Builders, env: Env, j: Job)
    requires Admissible(lg, b, env) && !DrainDisabled(lg) && Observed(env)
    requires ReconcileObject(DrainerJobObject(j), StatePresent) in Pass(lg, b, env).ops
    ensures var s := SnapshotOf(lg, env);
      exists p :: (p in DrainableClaims(env.claims.value) && Drainable(p) &&
        !MarkedAsDrained(p) && !InUse(s, p.name) && JobOf(s, p.name).None? &&
        HasSeparator(p.name) && DrainerJob(lg, b, p) == Ok(j) &&
        env.respond(ReconcileObject(PlaceholderPod(p.name), StatePresent)).err.None?)
  {
    var s := SnapshotOf(lg, env);
    var claims := DrainableClaims(env.claims.value);
    var ts := ClaimTraces(lg, b, env.respond, s, claims);
    ConcatAllOps(ts, ReconcileObject(DrainerJobObject(j), StatePresent));
    var k :| 0 <= k < |ts| && ReconcileObject(DrainerJobObject(j), StatePresent) in ts[k].ops;
    var p := claims[k];
    JobOnlyForIdleClaim(lg, b, env.respond, p, InUse(s, p.name), JobOf(s, p.name), j);
    assert p in claims;
  }

  /** Once a volume called `name` is found, volumes appended after it do not change the answer. */
  lemma FirstVolumeIndexExtend(vols: seq<Volume>, more: seq<Volume>, name: string)
    requires FirstVolumeIndex(vols, name) >= 0
    ensures FirstVolumeIndex(vols + more, name) == FirstVolumeIndex(vols, name)
  {
    var r, q := FirstVolumeIndex(vols, name), FirstVolumeIndex(vols + more, name);
    assert (vols + more)[r] == vols[r];
  }

  /** A volume applier that only ever appends volumes. */
  ghost predicate KeepsVolumes(apply: (ExtraVolume, PodSpec) -> Result<PodSpec, string>) {
    forall ev, q :: apply(ev, q).Ok? ==> q.volumes <= apply(ev, q).value.volumes
  }

  /** With such an applier, the extra volumes keep the pod's volumes as a prefix. */
  lemma {:induction false} ApplyExtraVolumesKeepsVolumes(apply: (ExtraVolume, PodSpec) -> Result<PodSpec, string>,
                                                         evs: seq<ExtraVolume>, ps: PodSpec)
    requires KeepsVolumes(apply)
    ensures ApplyExtraVolumes(apply, evs, ps).Ok? ==> ps.volumes <= ApplyExtraVolumes(apply, evs, ps).value.volumes
    decreases |evs|
  {
    if evs != [] && apply(evs[0], ps).Ok? {
      ApplyExtraVolumesKeepsVolumes(apply, evs[1..], apply(evs[0], ps).value);
    }
  }

  /** The names of a pod's containers, in order. */
  function ContainerNames(ps: PodSpec): (r: seq<string>)
    ensures |r| == |ps.containers|
    ensures forall i :: 0 <= i < |ps.containers| ==> r[i] == ps.containers[i].name
  {
    seq(|ps.containers|, i requires 0 <= i < |ps.containers| => ps.containers[i].name)
  }

  /** A volume applier that leaves the restart policy, the service account and the containers'
      names and order alone (it may add volumes and mounts). */
  ghost predicate KeepsPodShape(apply: (ExtraVolume, PodSpec) -> Result<PodSpec, string>) {
    forall ev, q :: apply(ev, q).Ok? ==>
      && apply(ev, q).value.restartPolicy == q.restartPolicy
      && apply(ev, q).value.serviceAccountName == q.serviceAccountName
      && ContainerNames(apply(ev, q).value) == ContainerNames(q)
  }

  /** With such an applier, applying the extra volumes keeps the pod's shape. */
  lemma {:induction false} ApplyExtraVolumesKeepsShape(apply: (ExtraVolume, PodSpec) -> Result<PodSpec, string>,
                                                       evs: seq<ExtraVolume>, ps: PodSpec)
    requires KeepsPodShape(apply)
    ensures var r := ApplyExtraVolumes(apply, evs, ps);
      r.Ok? ==>
        && r.value.restartPolicy == ps.restartPolicy
        && r.value.serviceAccountName == ps.serviceAccountName
        && ContainerNames(r.value) == ContainerNames(ps)
    decreases |evs|
  {
    if evs != [] && apply(evs[0], ps).Ok? {
      ApplyExtraVolumesKeepsShape(apply, evs[1..], apply(evs[0], ps).value);
    }
  }

  /** The built drainer's pod never restarts, runs as the syslog-ng service account, and runs the
      syslog-ng container, then drain-watch, then the sidecar if configured, whatever extra volumes
      were applied, provided the applier keeps the pod's shape. */
  lemma BuiltDrainerShape(lg: Logging, b: Builders, pvc: PersistentVolumeClaim)
    requires HasSeparator(pvc.name) && DrainerJob(lg, b, pvc).Ok?
    requires KeepsPodShape(b.applyVolumeForPodSpec)
    ensures var spec := DrainerJob(lg, b, pvc).value.template.spec;
      && spec.restartPolicy == RestartNever
      && spec.serviceAccountName == ServiceAccountName(lg)
      && ContainerNames(spec) ==
           [b.syslogNGContainer(WithoutSyslogNGOutLogrotate(lg.spec)).name, DrainWatchContainerName] +
           (if b.bufferMetricsSidecar.Some? then [b.bufferMetricsSidecar.value.name] else [])
  {
    var ps := DrainerPodSpec(lg, b, pvc.name);
    ApplyExtraVolumesKeepsShape(b.applyVolumeForPodSpec, lg.spec.extraVolumes, ps);
    var names := [b.syslogNGContainer(WithoutSyslogNGOutLogrotate(lg.spec)).name, DrainWatchContainerName] +
      (if b.bufferMetricsSidecar.Some? then [b.bufferMetricsSidecar.value.name] else []);
    assert ps.containers[0].name == b.syslogNGContainer(WithoutSyslogNGOutLogrotate(lg.spec)).name;
    assert ContainerNames(ps) == names;
  }

  /** The round trip between building and observing: when no generated volume takes the buffer
      volume's name and the extra volumes only append, the job built for a claim is attributed
      to that claim by the buffer-volume lookup reconcileDrain applies to listed jobs. */
  lemma BuiltDrainerMountsItsClaim(lg: Logging, b: Builders, pvc: PersistentVolumeClaim)
    requires HasSeparator(pvc.name) && DrainerJob(lg, b, pvc).Ok?
    requires KeepsVolumes(b.applyVolumeForPodSpec)
    requires forall k :: 0 <= k < |b.generatedVolumes| ==> b.generatedVolumes[k].name != BufferVolumeName(lg)
    ensures MountsClaim(DrainerJob(lg, b, pvc).value, BufferVolumeName(lg), pvc.name)
    ensures BufferVolumeIsClaim(DrainerJob(lg, b, pvc).value.template.spec.volumes, BufferVolumeName(lg))
  {
    var bufVolName := BufferVolumeName(lg);
    var ps := DrainerPodSpec(lg, b, pvc.name);
    var gen := b.generatedVolumes;
    var vols := ps.volumes;
    assert vols == gen + [Volume(bufVolName, ClaimSource(pvc.name))];
    assert vols[|gen|].name == bufVolName;
    assert FirstVolumeIndex(vols, bufVolName) == |gen|;
    ApplyExtraVolumesKeepsVolumes(b.applyVolumeForPodSpec, lg.spec.extraVolumes, ps);
    var final := ApplyExtraVolumes(b.applyVolumeForPodSpec, lg.spec.extraVolumes, ps).value.volumes;
    assert final == vols + final[|vols|..];
    FirstVolumeIndexExtend(vols, final[|vols|..], bufVolName);
  }

  /** Idempotence across passes: once a job with the volumes of the drainer built for a claim
      shows up in the job listing, whatever its status, the claim has a job and the next pass does
      not create another. */
  lemma ListedDrainerIsNotRecreated(lg: Logging, b: Builders, s: Snapshot, pvc: PersistentVolumeClaim, listed: Job)
    requires HasSeparator(pvc.name) && DrainerJob(lg, b, pvc).Ok?
    requires KeepsVolumes(b.applyVolumeForPodSpec)
    requires forall k :: 0 <= k < |b.generatedVolumes| ==> b.generatedVolumes[k].name != BufferVolumeName(lg)
    requires s.bufVolName == BufferVolumeName(lg) && listed in s.jobs
    requires listed.template.spec.volumes == DrainerJob(lg, b, pvc).value.template.spec.volumes
    ensures JobOf(s, pvc.name).Some?
    ensures Decide(MarkedAsDrained(pvc), InUse(s, pvc.name), JobOf(s, pvc.name)) != StartDrain
  {
    BuiltDrainerMountsItsClaim(lg, b, pvc);
    assert MountsClaim(listed, s.bufVolName, pvc.name);
    LastJobForNone(s.jobs, s.bufVolName, pvc.name);
    var k :| 0 <= k < |s.jobs| && s.jobs[k] == listed;
  }

  /** The two label patches do what their branches rely on: the finishing patch marks the claim
      drained, the removing patch unmarks it, and neither touches another label. */
  lemma LabelPatchesFlipDrained(pvc: PersistentVolumeClaim)
    ensures var marked := pvc.(labels := pvc.labels[DrainStatusLabelKey := DrainStatusLabelValue]);
      MarkedAsDrained(marked) && Drainable(marked) == Drainable(pvc) && SameOtherLabels(marked.labels, pvc.labels)
    ensures var unmarked := pvc.(labels := pvc.labels - {DrainStatusLabelKey});
      !MarkedAsDrained(unmarked) && Drainable(unmarked) == Drainable(pvc) && SameOtherLabels(unmarked.labels, pvc.labels)
  {
    assert DrainLabelKey != DrainStatusLabelKey;
  }

  /** A finished claim settles: once labelled drained and its job gone, it is left alone while
      idle and loses the label when it is needed again; a drained claim is never drained again. */
  lemma DrainedClaimSettles(pvc: PersistentVolumeClaim, inUse: bool, job: Option<Job>)
    requires MarkedAsDrained(pvc)
    ensures Decide(true, inUse, None) == (if inUse then RemoveDrainedLabel else NoAction)
    ensures Decide(MarkedAsDrained(pvc), inUse, job) != StartDrain
  {
  }

  /** The order of the source's checks: a claim in use whose drainer has just succeeded is first
      labelled drained, and the label comes off again on the following pass. */
  lemma SucceededDrainOnClaimInUse(pvc: PersistentVolumeClaim, job: Job)
    requires !MarkedAsDrained(pvc) && JobSuccessfullyCompleted(job)
    ensures Decide(false, true, Some(job)) == FinishDrain
    ensures var marked := pvc.(labels := pvc.labels[DrainStatusLabelKey := DrainStatusLabelValue]);
      Decide(MarkedAsDrained(marked), true, None) == RemoveDrainedLabel
  {
    LabelPatchesFlipDrained(pvc);
  }

  /** Every ordinal below the replica count holds its buffer claim in use, whether or not a pod
      currently mounts it. */
  lemma OrdinalClaimsAreInUse(s: Snapshot, i: nat)
    requires i < s.replicas
    ensures InUse(s, OrdinalClaim(s.bufVolName, s.stsName, i))
  {
  }
}
