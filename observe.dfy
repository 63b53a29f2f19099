/** What one drain pass observes before it acts: which claims are drainable or marked drained,
    which claims the statefulset needs, and which drainer job mounts each claim. The Go code
    builds the last two as maps in loops; the methods here do the same and are proved against
    the functions that say what the maps contain. */
module Observe {
  import opened Wrappers
  import opened Kube
  import Strings

  const DrainLabelKey := "logging.banzaicloud.io/drain"
  const DrainStatusLabelKey := "logging.banzaicloud.io/drain-status"
  const DrainStatusLabelValue := "drained"

  /** The claim carries the drain-status label with the value "drained". */
  predicate MarkedAsDrained(pvc: PersistentVolumeClaim): (b: bool)
    ensures b <==> DrainStatusLabelKey in pvc.labels && pvc.labels[DrainStatusLabelKey] == DrainStatusLabelValue
  {
    LabelValue(pvc.labels, DrainStatusLabelKey) == DrainStatusLabelValue
  }

  /** The claim list's selector: the drain label is not "no" (a missing label does not opt out). */
  predicate Drainable(pvc: PersistentVolumeClaim): (b: bool)
    ensures b <==> !(DrainLabelKey in pvc.labels && pvc.labels[DrainLabelKey] == "no")
  {
    LabelValue(pvc.labels, DrainLabelKey) != "no"
  }

  /** The claims a list call with the drainable selector returns, in list order. */
  function DrainableClaims(pvcs: seq<PersistentVolumeClaim>): (r: seq<PersistentVolumeClaim>)
    ensures forall p :: p in r <==> p in pvcs && Drainable(p)
  {
    if pvcs == [] then []
    else (if Drainable(pvcs[0]) then [pvcs[0]] else []) + DrainableClaims(pvcs[1..])
  }

  /** A job has succeeded: it has a completion time and at least one succeeded pod. */
  predicate JobSuccessfullyCompleted(job: Job): (b: bool)
    ensures b <==> job.status.completionTime.Some? && job.status.succeeded > 0
  {
    job.status.completionTime.Some? && job.status.succeeded > 0
  }

  /** The position of the first volume called `name`, or -1. */
  function FirstVolumeIndex(vols: seq<Volume>, name: string): (r: int)
    ensures -1 <= r < |vols|
    ensures r >= 0 ==> vols[r].name == name
    ensures forall j :: 0 <= j < |vols| && (r < 0 || j < r) ==> vols[j].name != name
  {
    if |vols| == 0 then -1
    else if vols[0].name == name then 0
    else
      var t := FirstVolumeIndex(vols[1..], name);
      if t < 0 then -1 else t + 1
  }

  function FirstVolumeNamed(vols: seq<Volume>, name: string): Option<Volume> {
    var k := FirstVolumeIndex(vols, name);
    if k < 0 then None else Some(vols[k])
  }

  /** findVolumeByName: a linear search for the first volume with the given name. */
  method FindVolumeByName(vols: seq<Volume>, name: string) returns (r: Option<Volume>)
    ensures r.None? <==> forall k :: 0 <= k < |vols| ==> vols[k].name != name
    ensures r.Some? ==> r.value.name == name
    ensures r == FirstVolumeNamed(vols, name)
  {
    var i := 0;
    while i < |vols|
      invariant 0 <= i <= |vols|
      invariant forall j :: 0 <= j < i ==> vols[j].name != name
    {
      if vols[i].name == name {
        return Some(vols[i]);
      }
      i := i + 1;
    }
    return None;
  }

  /** The source demands that the first volume called `bufVolName`, if any, is claim-backed:
      reading its claim name dereferences the claim source. */
  predicate BufferVolumeIsClaim(vols: seq<Volume>, bufVolName: string) {
    var v := FirstVolumeNamed(vols, bufVolName);
    v.Some? ==> v.value.source.ClaimSource?
  }

  /** The claim a pod or job mounts as its buffer volume, if it has one. */
  function BufferClaimOf(vols: seq<Volume>, bufVolName: string): Option<string> {
    var v := FirstVolumeNamed(vols, bufVolName);
    if v.Some? && v.value.source.ClaimSource? then Some(v.value.source.claimName) else None
  }

  predicate PodsWellFormed(pods: seq<Pod>, bufVolName: string) {
    forall k :: 0 <= k < |pods| ==> BufferVolumeIsClaim(pods[k].spec.volumes, bufVolName)
  }

  predicate JobsWellFormed(jobs: seq<Job>, bufVolName: string) {
    forall k :: 0 <= k < |jobs| ==> BufferVolumeIsClaim(jobs[k].template.spec.volumes, bufVolName)
  }

  /** Some statefulset pod mounts `claim` as its buffer volume. */
  predicate ClaimedByPod(pods: seq<Pod>, bufVolName: string, claim: string) {
    exists k :: 0 <= k < |pods| && BufferClaimOf(pods[k].spec.volumes, bufVolName) == Some(claim)
  }

  /** The claim the statefulset's volume claim template gives ordinal `i`: "<volume>-<sts>-<i>". */
  function OrdinalClaim(bufVolName: string, stsName: string, i: nat): (r: string)
    ensures var k := |bufVolName| + 1 + |stsName|;
      Strings.LastIndex(r, '-') == k && r[..k] == bufVolName + "-" + stsName && r[k + 1..] == Strings.Decimal(i)
  {
    var x := bufVolName + "-" + stsName;
    var d := Strings.Decimal(i);
    assert x + "-" + d == x + ['-'] + d;
    Strings.LastIndexOfAppendedSeparator(x, '-', d);
    assert (x + ['-'] + d)[..|x|] == x;
    assert (x + ['-'] + d)[|x| + 1..] == d;
    x + "-" + d
  }

  /** Distinct ordinals name distinct buffer claims. */
  lemma OrdinalClaimsDistinct(bufVolName: string, stsName: string, i: nat, j: nat)
    requires OrdinalClaim(bufVolName, stsName, i) == OrdinalClaim(bufVolName, stsName, j)
    ensures i == j
  {
    var prefix := bufVolName + "-" + stsName + "-";
    assert OrdinalClaim(bufVolName, stsName, i) == prefix + Strings.Decimal(i);
    assert OrdinalClaim(bufVolName, stsName, j) == prefix + Strings.Decimal(j);
    assert Strings.Decimal(i) == OrdinalClaim(bufVolName, stsName, i)[|prefix|..];
    assert Strings.Decimal(j) == OrdinalClaim(bufVolName, stsName, j)[|prefix|..];
    Strings.DecimalInjective(i, j);
  }

  predicate IsOrdinalClaim(claim: string, bufVolName: string, stsName: string, replicas: int) {
    exists i: nat :: i < replicas && claim == OrdinalClaim(bufVolName, stsName, i)
  }

  /** Go's PointerToInt32: a nil replica count reads as zero. */
  function ReplicaCountOrZero(replicas: Option<int>): (r: int)
    ensures replicas.None? ==> r == 0
    ensures replicas.Some? ==> r == replicas.value
  {
    if replicas.Some? then replicas.value else 0
  }

  /** The first loop of reconcileDrain: every claim a statefulset pod mounts is in use. */
  method MarkPodClaims(pods: seq<Pod>, bufVolName: string) returns (inUse: map<string, bool>)
    requires PodsWellFormed(pods, bufVolName)
    ensures forall n :: n in inUse ==> inUse[n]
    ensures forall n :: n in inUse <==> ClaimedByPod(pods, bufVolName, n)
  {
    inUse := map[];
    var i := 0;
    while i < |pods|
      invariant 0 <= i <= |pods|
      invariant forall n :: n in inUse ==> inUse[n]
      invariant forall n :: n in inUse <==> ClaimedByPod(pods[..i], bufVolName, n)
    {
      var bufVol := FindVolumeByName(pods[i].spec.volumes, bufVolName);
      assert pods[..i + 1][i] == pods[i];
      assert forall k :: 0 <= k < i ==> pods[..i + 1][k] == pods[..i][k];
      if bufVol.Some? {
        assert BufferVolumeIsClaim(pods[i].spec.volumes, bufVolName);
        inUse := inUse[bufVol.value.source.claimName := true];
      }
      i := i + 1;
    }
    assert pods[..|pods|] == pods;
  }

  /** The second loop of reconcileDrain: the claims of ordinals 0 .. replicas-1 are in use too, so
      that a scale-up finds its claims undrained. */
  method MarkOrdinalClaims(inUse: map<string, bool>, bufVolName: string, stsName: string, replicas: int)
    returns (r: map<string, bool>)
    ensures forall n :: n in r <==> n in inUse || IsOrdinalClaim(n, bufVolName, stsName, replicas)
    ensures forall n :: IsOrdinalClaim(n, bufVolName, stsName, replicas) ==> n in r && r[n]
    ensures forall n :: n in inUse && !IsOrdinalClaim(n, bufVolName, stsName, replicas) ==> r[n] == inUse[n]
  {
    r := inUse;
    var i := 0;
    while i < replicas
      invariant 0 <= i && (replicas >= 0 ==> i <= replicas) && (replicas < 0 ==> i == 0)
      invariant forall n :: n in r <==> n in inUse || IsOrdinalClaim(n, bufVolName, stsName, i)
      invariant forall n :: IsOrdinalClaim(n, bufVolName, stsName, i) ==> n in r && r[n]
      invariant forall n :: n in inUse && !IsOrdinalClaim(n, bufVolName, stsName, i) ==> r[n] == inUse[n]
    {
      var claim := OrdinalClaim(bufVolName, stsName, i);
      forall n ensures IsOrdinalClaim(n, bufVolName, stsName, i + 1) <==> IsOrdinalClaim(n, bufVolName, stsName, i) || n == claim {
        if n == claim {
          assert i < i + 1 && n == OrdinalClaim(bufVolName, stsName, i);
        }
      }
      r := r[claim := true];
      i := i + 1;
    }
    forall n ensures IsOrdinalClaim(n, bufVolName, stsName, i) <==> IsOrdinalClaim(n, bufVolName, stsName, replicas) {
    }
  }

  /** The job that `claim`'s entry in jobOfPVC ends up holding: the LAST listed job whose buffer
      volume is that claim, since a later map assignment overwrites an earlier one. */
  function LastJobFor(jobs: seq<Job>, bufVolName: string, claim: string): (r: Option<Job>)
    ensures r.Some? ==> MountsClaim(r.value, bufVolName, claim)
  {
    if jobs == [] then None
    else if MountsClaim(jobs[|jobs| - 1], bufVolName, claim) then Some(jobs[|jobs| - 1])
    else LastJobFor(jobs[..|jobs| - 1], bufVolName, claim)
  }

  /** The third loop of reconcileDrain: index the drainer jobs by the claim they drain. */
  method IndexJobs(jobs: seq<Job>, bufVolName: string) returns (jobOf: map<string, Job>)
    requires JobsWellFormed(jobs, bufVolName)
    ensures forall n :: n in jobOf <==> LastJobFor(jobs, bufVolName, n).Some?
    ensures forall n :: n in jobOf ==> jobOf[n] == LastJobFor(jobs, bufVolName, n).value
  {
    jobOf := map[];
    var i := 0;
    while i < |jobs|
      invariant 0 <= i <= |jobs|
      invariant forall n :: n in jobOf <==> LastJobFor(jobs[..i], bufVolName, n).Some?
      invariant forall n :: n in jobOf ==> jobOf[n] == LastJobFor(jobs[..i], bufVolName, n).value
    {
      var bufVol := FindVolumeByName(jobs[i].template.spec.volumes, bufVolName);
      assert jobs[..i + 1][..i] == jobs[..i];
      assert jobs[..i + 1][i] == jobs[i];
      if bufVol.Some? {
        assert BufferVolumeIsClaim(jobs[i].template.spec.volumes, bufVolName);
        jobOf := jobOf[bufVol.value.source.claimName := jobs[i]];
      }
      i := i + 1;
    }
    assert jobs[..|jobs|] == jobs;
  }

  predicate MountsClaim(job: Job, bufVolName: string, claim: string) {
    BufferClaimOf(job.template.spec.volumes, bufVolName) == Some(claim)
  }

  /** jobOfPVC has no entry for `claim` exactly when no listed job mounts it. */
  lemma {:induction false} LastJobForNone(jobs: seq<Job>, bufVolName: string, claim: string)
    ensures LastJobFor(jobs, bufVolName, claim).None? <==>
      forall k :: 0 <= k < |jobs| ==> !MountsClaim(jobs[k], bufVolName, claim)
  {
    if jobs != [] {
      var n := |jobs| - 1;
      LastJobForNone(jobs[..n], bufVolName, claim);
      assert forall k :: 0 <= k < n ==> jobs[..n][k] == jobs[k];
    }
  }

  /** The entry jobOfPVC holds for `claim` is a listed job that mounts the claim, and no later
      listed job mounts it. */
  lemma {:induction false} LastJobForIsLast(jobs: seq<Job>, bufVolName: string, claim: string)
    requires LastJobFor(jobs, bufVolName, claim).Some?
    ensures exists k :: (0 <= k < |jobs| && jobs[k] == LastJobFor(jobs, bufVolName, claim).value &&
      MountsClaim(jobs[k], bufVolName, claim) &&
      forall j :: k < j < |jobs| ==> !MountsClaim(jobs[j], bufVolName, claim))
  {
    var n := |jobs| - 1;
    if !MountsClaim(jobs[n], bufVolName, claim) {
      var front := jobs[..n];
      LastJobForIsLast(front, bufVolName, claim);
      var k :| 0 <= k < n && front[k] == LastJobFor(front, bufVolName, claim).value &&
        MountsClaim(front[k], bufVolName, claim) &&
        forall j :: k < j < n ==> !MountsClaim(front[j], bufVolName, claim);
      assert forall j :: k < j < n ==> front[j] == jobs[j];
      assert jobs[k] == LastJobFor(jobs, bufVolName, claim).value;
    }
  }
}
