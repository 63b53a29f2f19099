/** The drain coordinator's per-claim logic: the first-match decision chain of reconcileDrain, the
    store calls each branch makes, the rule that a failed call ends its branch, and the folding of
    errors and requeue requests into one combined result. */
module Coordinator {
  import opened Wrappers
  import opened Kube
  import opened Api
  import opened Observe
  import DrainJob

  /** controller-runtime's reconcile.Result: an immediate requeue and/or a requeue after a delay. */
  datatype RequeueResult = RequeueResult(requeue: bool, requeueAfter: nat) {
    predicate IsZero() {
      !requeue && requeueAfter == 0
    }
  }

  const NoRequeue := RequeueResult(false, 0)

  /** Merging two results (operator-tools' CombinedResult, not part of this model): a requeue is
      asked for when either asks, and the earlier positive delay wins. */
  function Merge(a: RequeueResult, b: RequeueResult): (r: RequeueResult)
    ensures r.IsZero() <==> a.IsZero() && b.IsZero()
    ensures r.requeue <==> a.requeue || b.requeue
  {
    RequeueResult(
      a.requeue || b.requeue,
      if b.requeueAfter > 0 && (a.requeueAfter == 0 || b.requeueAfter < a.requeueAfter) then b.requeueAfter else a.requeueAfter)
  }

  function MergeAll(acc: RequeueResult, rs: seq<RequeueResult>): RequeueResult
    decreases |rs|
  {
    if rs == [] then acc else MergeAll(Merge(acc, rs[0]), rs[1..])
  }

  /** The merged result stays zero exactly when every merged result is zero. */
  lemma {:induction false} MergeAllIsZero(acc: RequeueResult, rs: seq<RequeueResult>)
    ensures MergeAll(acc, rs).IsZero() <==> acc.IsZero() && forall k :: 0 <= k < |rs| ==> rs[k].IsZero()
    decreases |rs|
  {
    if rs != [] {
      MergeAllIsZero(Merge(acc, rs[0]), rs[1..]);
      assert forall k :: 1 <= k < |rs| ==> rs[1..][k - 1] == rs[k];
    }
  }

  lemma {:induction false} MergeAllAppend(acc: RequeueResult, a: seq<RequeueResult>, b: seq<RequeueResult>)
    ensures MergeAll(acc, a + b) == MergeAll(MergeAll(acc, a), b)
    decreases |a|
  {
    if a == [] {
      assert a + b == b;
    } else {
      assert (a + b)[0] == a[0];
      assert (a + b)[1..] == a[1..] + b;
      MergeAllAppend(Merge(acc, a[0]), a[1..], b);
    }
  }

  /** Which branch of the decision chain a claim takes. */
  datatype Branch =
    | RemoveDrainedLabel     // drained but needed again: take the label off
    | FinishDrain            // the drainer job succeeded: label, delete the job, free the placeholder
    | CancelDrain            // needed again while draining: delete the job, free the placeholder
    | ReportFailure(attempts: int)  // the job failed pods: report, do not retry
    | AwaitDrain             // the job is still running
    | StartDrain             // idle and undrained: reserve the placeholder, create the job
    | NoAction

  /** The decision chain of reconcileDrain, read as a table: each branch is taken for exactly the
      combinations of facts its row names. */
  function Decide(drained: bool, inUse: bool, job: Option<Job>): (r: Branch)
    ensures r == RemoveDrainedLabel <==> drained && inUse
    ensures r == FinishDrain <==> !(drained && inUse) && job.Some? && JobSuccessfullyCompleted(job.value)
    ensures r == CancelDrain <==> !drained && inUse && job.Some? && !JobSuccessfullyCompleted(job.value)
    ensures r.ReportFailure? <==> !inUse && job.Some? && !JobSuccessfullyCompleted(job.value) && job.value.status.failed > 0
    ensures r.ReportFailure? ==> r.attempts == job.value.status.failed
    ensures r == AwaitDrain <==> !inUse && job.Some? && !JobSuccessfullyCompleted(job.value) && job.value.status.failed <= 0
    ensures r == StartDrain <==> !drained && !inUse && job.None?
    ensures r == NoAction <==> job.None? && drained != inUse
  {
    if drained && inUse then RemoveDrainedLabel
    else if job.Some? && JobSuccessfullyCompleted(job.value) then FinishDrain
    else if inUse && job.Some? then CancelDrain
    else if job.Some? && !JobSuccessfullyCompleted(job.value) then
      (if job.value.status.failed > 0 then ReportFailure(job.value.status.failed) else AwaitDrain)
    else if !drained && !inUse && job.None? then StartDrain
    else NoAction
  }

  /** The objects handed to the generic resource reconciler. A placeholder pod is identified by
      the claim it holds (placeholderPodFor is not part of this model). */
  datatype Desired = PlaceholderPod(claim: string) | DrainerJobObject(job: Job)

  /** A mutating call on the Kubernetes store. */
  datatype Op =
    | PatchLabels(claim: string, labels: Labels)
    | DeleteJob(job: string, propagation: Propagation)
    | ReconcileObject(object: Desired, state: DesiredState)

  /** The store's answer to a call: a requested requeue (only the reconciler gives one) and an error. */
  datatype Reply = Reply(result: Option<RequeueResult>, err: Option<StoreError>)

  /** The message a failed step's error is wrapped in; the ones that name a claim carry it. */
  datatype Context =
    | RemovingDrainedLabelFromClaim
    | MarkingClaimAsDrained
    | DeletingCompletedJob
    | RemovingPlaceholder(claim: string)
    | DeletingUnnecessaryJob
    | EnsuringPlaceholder(claim: string)

  datatype Listing = ClaimList | PodList | JobList

  datatype DrainError =
    | StepFailed(context: Context, cause: StoreError)
    | DrainingFailed(claim: string, attempts: int)
    | AssemblingJob(reason: string)
    | JobReconcileFailed(cause: StoreError)
    | ListingFailed(listing: Listing, cause: StoreError)
    | ReplicaCountFailed(cause: StoreError)

  /** How a call's reply is folded into the combined result. */
  datatype Handling =
    | IgnoreMissing(context: Context)  // patch and delete: NotFound is ignored, the result is unused
    | ErrorOnly(context: Context)      // placeholder: the reply counts only when it is an error
    | CombineAll                       // the job itself: result and error both count

  datatype Step = Invoke(op: Op, handling: Handling) | Raise(err: DrainError)

  /** The output of a run: the calls made, in order, and what they add to the combined result. */
  datatype Trace = Trace(ops: seq<Op>, errs: seq<DrainError>, results: seq<RequeueResult>)

  const EmptyTrace := Trace([], [], [])

  function Concat(t: Trace, u: Trace): Trace {
    Trace(t.ops + u.ops, t.errs + u.errs, t.results + u.results)
  }

  /** Traces one after the other, in order. */
  function ConcatAll(ts: seq<Trace>): Trace
    decreases |ts|
  {
    if ts == [] then EmptyTrace else Concat(ConcatAll(ts[..|ts| - 1]), ts[|ts| - 1])
  }

  /** client.IgnoreNotFound */
  function IgnoreNotFound(err: Option<StoreError>): (r: Option<StoreError>)
    ensures r.None? <==> err.None? || err == Some(NotFound)
    ensures r.Some? ==> r == err
  {
    if err == Some(NotFound) then None else err
  }

  function OptionToSeq<T>(o: Option<T>): seq<T> {
    if o.Some? then [o.value] else []
  }

  datatype StepOutcome = StepOutcome(errs: seq<DrainError>, results: seq<RequeueResult>, stop: bool)

  /** What one reply adds to the combined result, and whether the branch stops there. */
  function Outcome(h: Handling, reply: Reply): (o: StepOutcome)
    ensures o.stop <==> |o.errs| == 1
    ensures |o.errs| <= 1 && |o.results| <= 1
    ensures h.IgnoreMissing? ==> o.results == [] && (o.stop <==> IgnoreNotFound(reply.err).Some?)
    ensures h.IgnoreMissing? && o.stop ==> o.errs == [StepFailed(h.context, reply.err.value)]
    ensures h.ErrorOnly? ==> o.results == (if reply.err.Some? then OptionToSeq(reply.result) else [])
    ensures h.ErrorOnly? ==> (o.stop <==> reply.err.Some?)
    ensures h.ErrorOnly? && o.stop ==> o.errs == [StepFailed(h.context, reply.err.value)]
    ensures h.CombineAll? ==> o.results == OptionToSeq(reply.result)
    ensures h.CombineAll? ==> (o.stop <==> reply.err.Some?)
    ensures h.CombineAll? && o.stop ==> o.errs == [JobReconcileFailed(reply.err.value)]
  {
    match h
    case IgnoreMissing(ctx) =>
      var e := IgnoreNotFound(reply.err);
      if e.Some? then StepOutcome([StepFailed(ctx, e.value)], [], true) else StepOutcome([], [], false)
    case ErrorOnly(ctx) =>
      if reply.err.Some? then StepOutcome([StepFailed(ctx, reply.err.value)], OptionToSeq(reply.result), true)
      else StepOutcome([], [], false)
    case CombineAll =>
      if reply.err.Some? then StepOutcome([JobReconcileFailed(reply.err.value)], OptionToSeq(reply.result), true)
      else StepOutcome([], OptionToSeq(reply.result), false)
  }

  /** Runs a branch's steps in order; the first failed call or raised error ends the branch. */
  function Run(steps: seq<Step>, respond: Op -> Reply): (t: Trace)
    ensures |t.ops| <= |steps|
    ensures |t.errs| <= 1
    ensures |t.results| <= |t.ops|
    decreases |steps|
  {
    if steps == [] then EmptyTrace
    else match steps[0]
      case Raise(e) => Trace([], [e], [])
      case Invoke(op, h) =>
        var o := Outcome(h, respond(op));
        var rest := if o.stop then EmptyTrace else Run(steps[1..], respond);
        Trace([op] + rest.ops, o.errs + rest.errs, o.results + rest.results)
  }

  predicate Stopped(steps: seq<Step>, k: nat, respond: Op -> Reply)
    requires k < |steps| && steps[k].Invoke?
  {
    Outcome(steps[k].handling, respond(steps[k].op)).stop
  }

  /** A branch makes its calls in order and makes a call only when every earlier call of the
      branch went through; it ends early only at a failed call or a raised error. */
  lemma {:induction false} RunStopsAtFirstFailure(steps: seq<Step>, respond: Op -> Reply)
    ensures var t := Run(steps, respond);
      && |t.ops| <= |steps|
      && (forall k :: 0 <= k < |t.ops| ==> steps[k].Invoke? && t.ops[k] == steps[k].op)
      && (forall k :: 0 <= k < |t.ops| - 1 ==> !Stopped(steps, k, respond))
      && (|t.ops| < |steps| ==> steps[|t.ops|].Raise? || (|t.ops| > 0 && Stopped(steps, |t.ops| - 1, respond)))
  {
    if steps != [] && steps[0].Invoke? {
      var o := Outcome(steps[0].handling, respond(steps[0].op));
      if !o.stop {
        var rest := steps[1..];
        RunStopsAtFirstFailure(rest, respond);
        var t := Run(rest, respond);
        assert forall k :: 0 <= k < |rest| && rest[k].Invoke? ==> (Stopped(rest, k, respond) <==> Stopped(steps, k + 1, respond));
        assert Run(steps, respond).ops == [steps[0].op] + t.ops;
      }
    }
  }

  /** The two label sets differ at most in the drain-status label. */
  ghost predicate SameOtherLabels(a: Labels, b: Labels) {
    forall k :: k != DrainStatusLabelKey ==> (k in a <==> k in b) && (k in a ==> a[k] == b[k])
  }

  /** A drained claim in use again: one patch that drops the drain-status label. */
  function RemoveLabelSteps(pvc: PersistentVolumeClaim): (r: seq<Step>)
    ensures |r| == 1 && r[0].Invoke? && r[0].handling == IgnoreMissing(RemovingDrainedLabelFromClaim)
    ensures r[0].op.PatchLabels? && r[0].op.claim == pvc.name
    ensures DrainStatusLabelKey !in r[0].op.labels && SameOtherLabels(r[0].op.labels, pvc.labels)
  {
    [Invoke(PatchLabels(pvc.name, pvc.labels - {DrainStatusLabelKey}), IgnoreMissing(RemovingDrainedLabelFromClaim))]
  }

  /** A succeeded drainer: mark the claim, delete the job in the background, free the placeholder. */
  function FinishSteps(pvc: PersistentVolumeClaim, job: Job): (r: seq<Step>)
    ensures |r| == 3 && r[0].Invoke? && r[0].handling == IgnoreMissing(MarkingClaimAsDrained)
    ensures r[0].op.PatchLabels? && r[0].op.claim == pvc.name
    ensures MarkedAsDrained(pvc.(labels := r[0].op.labels)) && SameOtherLabels(r[0].op.labels, pvc.labels)
    ensures r[1] == Invoke(DeleteJob(job.meta.name, Background), IgnoreMissing(DeletingCompletedJob))
    ensures r[2] == Invoke(ReconcileObject(PlaceholderPod(pvc.name), StateAbsent), ErrorOnly(RemovingPlaceholder(pvc.name)))
  {
    [ Invoke(PatchLabels(pvc.name, pvc.labels[DrainStatusLabelKey := DrainStatusLabelValue]), IgnoreMissing(MarkingClaimAsDrained)),
      Invoke(DeleteJob(job.meta.name, Background), IgnoreMissing(DeletingCompletedJob)),
      Invoke(ReconcileObject(PlaceholderPod(pvc.name), StateAbsent), ErrorOnly(RemovingPlaceholder(pvc.name))) ]
  }

  /** A claim needed again while its drainer runs: delete the job in the foreground, free the
      placeholder. */
  function CancelSteps(pvc: PersistentVolumeClaim, job: Job): (r: seq<Step>)
    ensures |r| == 2
    ensures r[0] == Invoke(DeleteJob(job.meta.name, Foreground), IgnoreMissing(DeletingUnnecessaryJob))
    ensures r[1] == Invoke(ReconcileObject(PlaceholderPod(pvc.name), StateAbsent), ErrorOnly(RemovingPlaceholder(pvc.name)))
  {
    [ Invoke(DeleteJob(job.meta.name, Foreground), IgnoreMissing(DeletingUnnecessaryJob)),
      Invoke(ReconcileObject(PlaceholderPod(pvc.name), StateAbsent), ErrorOnly(RemovingPlaceholder(pvc.name))) ]
  }

  /** What the source demands before it builds a claim's drainer: the build is reached only once
      the placeholder is in place, and then it slices the name unless an extra volume failed. */
  predicate StartReady(lg: Logging, b: DrainJob.Builders, respond: Op -> Reply, pvc: PersistentVolumeClaim) {
    respond(ReconcileObject(PlaceholderPod(pvc.name), StatePresent)).err.None? ==> DrainJob.Buildable(lg, b, pvc)
  }

  /** An idle, undrained claim without a job: ensure its placeholder, then hand the drainer job to
      the reconciler, or report why it could not be assembled. drainerJobFor runs only after the
      placeholder went through, so the steps after the placeholder exist only then. */
  function StartSteps(lg: Logging, b: DrainJob.Builders, respond: Op -> Reply, pvc: PersistentVolumeClaim): (r: seq<Step>)
    requires StartReady(lg, b, respond, pvc)
    ensures 1 <= |r| <= 2
    ensures r[0] == Invoke(ReconcileObject(PlaceholderPod(pvc.name), StatePresent), ErrorOnly(EnsuringPlaceholder(pvc.name)))
    ensures |r| == 2 <==> respond(ReconcileObject(PlaceholderPod(pvc.name), StatePresent)).err.None?
    ensures |r| == 2 ==> var built := DrainJob.DrainerJob(lg, b, pvc);
      r[1] == if built.Ok? then Invoke(ReconcileObject(DrainerJobObject(built.value), StatePresent), CombineAll)
              else Raise(AssemblingJob(built.error))
  {
    [Invoke(ReconcileObject(PlaceholderPod(pvc.name), StatePresent), ErrorOnly(EnsuringPlaceholder(pvc.name)))] +
    (if respond(ReconcileObject(PlaceholderPod(pvc.name), StatePresent)).err.Some? then []
     else match DrainJob.DrainerJob(lg, b, pvc)
       case Err(e) => [Raise(AssemblingJob(e))]
       case Ok(j) => [Invoke(ReconcileObject(DrainerJobObject(j), StatePresent), CombineAll)])
  }

  /** The calls each branch makes, in the source's order. Only the branches that wait or have
      nothing to do make none, and a raised error always ends its branch. */
  function Steps(lg: Logging, b: DrainJob.Builders, respond: Op -> Reply, branch: Branch, pvc: PersistentVolumeClaim,
                 job: Option<Job>): (r: seq<Step>)
    requires branch == FinishDrain || branch == CancelDrain ==> job.Some?
    requires branch == StartDrain ==> StartReady(lg, b, respond, pvc)
    ensures |r| <= 3
    ensures r == [] <==> branch == AwaitDrain || branch == NoAction
    ensures forall k :: 0 <= k < |r| - 1 ==> r[k].Invoke?
    ensures branch.ReportFailure? ==> r == [Raise(DrainingFailed(pvc.name, branch.attempts))]
  {
    match branch
    case RemoveDrainedLabel => RemoveLabelSteps(pvc)
    case FinishDrain => FinishSteps(pvc, job.value)
    case CancelDrain => CancelSteps(pvc, job.value)
    case ReportFailure(attempts) => [Raise(DrainingFailed(pvc.name, attempts))]
    case AwaitDrain => []
    case StartDrain => StartSteps(lg, b, respond, pvc)
    case NoAction => []
  }

  /** What the source demands of a claim the chain sends to StartDrain. */
  predicate ClaimNameable(lg: Logging, b: DrainJob.Builders, respond: Op -> Reply, pvc: PersistentVolumeClaim,
                          inUse: bool, job: Option<Job>) {
    !MarkedAsDrained(pvc) && !inUse && job.None? ==> StartReady(lg, b, respond, pvc)
  }

  /** One iteration of reconcileDrain's claim loop, as a trace of calls and contributions. */
  function ClaimRun(lg: Logging, b: DrainJob.Builders, respond: Op -> Reply, pvc: PersistentVolumeClaim, inUse: bool, job: Option<Job>)
    : Trace
    requires ClaimNameable(lg, b, respond, pvc, inUse, job)
  {
    Run(Steps(lg, b, respond, Decide(MarkedAsDrained(pvc), inUse, job), pvc, job), respond)
  }

  /** cr, the combined result the claim loop accumulates into. */
  datatype Combined = Combined(result: RequeueResult, errs: seq<DrainError>) {
    /** cr.CombineErr: the error, if any, is appended; the result is untouched. */
    function CombineErr(err: Option<DrainError>): (r: Combined)
      ensures r.result == result
      ensures |r.errs| == |errs| + (if err.Some? then 1 else 0) && r.errs[..|errs|] == errs
      ensures err.Some? ==> r.errs[|errs|] == err.value
    {
      Combined(result, errs + OptionToSeq(err))
    }

    /** cr.Combine: the error as in CombineErr; the result is merged in, so the combined result
        stays zero exactly when it was zero and the new one is nil or zero. */
    function Combine(res: Option<RequeueResult>, err: Option<DrainError>): (r: Combined)
      ensures r.errs == CombineErr(err).errs
      ensures r.result.IsZero() <==> result.IsZero() && (res.None? || res.value.IsZero())
      ensures r.result.requeue <==> result.requeue || (res.Some? && res.value.requeue)
      ensures res.None? ==> r.result == result
    {
      Combined(if res.Some? then Merge(result, res.value) else result, errs + OptionToSeq(err))
    }

    function Absorb(t: Trace): Combined {
      Combined(MergeAll(result, t.results), errs + t.errs)
    }
  }

  const EmptyCombined := Combined(NoRequeue, [])

  /** Absorbing two traces one after the other is absorbing their concatenation. */
  lemma AbsorbConcat(cr: Combined, t: Trace, u: Trace)
    ensures cr.Absorb(Concat(t, u)) == cr.Absorb(t).Absorb(u)
  {
    MergeAllAppend(cr.result, t.results, u.results);
    assert cr.errs + (t.errs + u.errs) == (cr.errs + t.errs) + u.errs;
  }

  /** Combining one reply is absorbing the trace that holds just that reply's contribution. */
  lemma CombineIsAbsorb(cr: Combined, ops: seq<Op>, res: Option<RequeueResult>, err: Option<DrainError>)
    ensures cr.Combine(res, err) == cr.Absorb(Trace(ops, OptionToSeq(err), OptionToSeq(res)))
  {
    if res.Some? {
      assert [res.value][1..] == [];
      assert MergeAll(cr.result, [res.value]) == MergeAll(Merge(cr.result, res.value), []);
    }
  }

  /** One step of a run: the first call's contribution, then the rest unless the call failed. */
  lemma RunStep(steps: seq<Step>, respond: Op -> Reply)
    requires steps != [] && steps[0].Invoke?
    ensures var o := Outcome(steps[0].handling, respond(steps[0].op));
      Run(steps, respond) == Concat(Trace([steps[0].op], o.errs, o.results), if o.stop then EmptyTrace else Run(steps[1..], respond))
  {
  }
}
