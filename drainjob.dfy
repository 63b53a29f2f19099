/** The drainer job builder: the one-shot job that moves a claim's buffered data out before its
    volume is given up. The builder reuses the syslog-ng container, adds a watcher that signals
    when the buffers are empty, and mounts the drained claim into both. */
module DrainJob {
  import opened Wrappers
  import opened Kube
  import opened Api
  import Strings

  /** The package's resource builders the drainer job reuses (syslogNGContainer,
      bufferMetricsSidecarContainer, generateVolume, ApplyVolumeForPodSpec and the drainer's
      labels). Their definitions are not part of this model, so they are carried as values. */
  datatype Builders = Builders(
    syslogNGContainer: SyslogNGSpec -> Container,
    bufferMetricsSidecar: Option<Container>,
    generatedVolumes: seq<Volume>,
    applyVolumeForPodSpec: (ExtraVolume, PodSpec) -> Result<PodSpec, string>,
    drainerLabels: Labels)

  const DrainWatchContainerName := "drain-watch"
  const BufferPathEnvName := "BUFFER_PATH"
  const DrainerJobSuffix := "-drainer"

  /** withoutSyslogNGOutLogrotate: a copy of the settings with log rotation switched off and
      nothing else changed; the settings passed in are values and stay as they were. */
  function WithoutSyslogNGOutLogrotate(spec: SyslogNGSpec): (r: SyslogNGSpec)
    ensures r.outLogrotate.None?
    ensures r.(outLogrotate := spec.outLogrotate) == spec
  {
    spec.(outLogrotate := None)
  }

  /** drainWatchContainer: the container that watches the buffer directory read-only and signals
      completion once it is empty. */
  function DrainWatchContainer(cfg: DrainConfig, bufferVolumeName: string): (c: Container)
    ensures c.name == DrainWatchContainerName
    ensures c.env == [EnvVar(BufferPathEnvName, BufferPath)]
    ensures |c.volumeMounts| == 1
    ensures c.volumeMounts[0].name == bufferVolumeName && c.volumeMounts[0].mountPath == BufferPath
    ensures c.volumeMounts[0].readOnly
    ensures c.image == cfg.image.reference && c.imagePullPolicy == cfg.image.pullPolicy
  {
    Container(
      name := DrainWatchContainerName,
      image := cfg.image.reference,
      imagePullPolicy := cfg.image.pullPolicy,
      env := [EnvVar(BufferPathEnvName, BufferPath)],
      volumeMounts := [VolumeMount(bufferVolumeName, BufferPath, true)])
  }

  /** The claim's name has a '-', so the job name can be cut from it. */
  predicate HasSeparator(claim: string) {
    exists k :: 0 <= k < |claim| && claim[k] == '-'
  }

  /** The job's name: "syslogng", then the claim's name from its last '-' on, then "-drainer".
      Slicing at LastIndex fails in the source when the name has no '-', hence the requirement. */
  function JobName(claim: string): (r: string)
    requires HasSeparator(claim)
    ensures exists k :: (0 <= k < |claim| && claim[k] == '-' &&
      (forall j :: k < j < |claim| ==> claim[j] != '-') &&
      r == StatefulSetName + claim[k..] + DrainerJobSuffix)
  {
    var k := Strings.LastIndex(claim, '-');
    StatefulSetName + claim[k..] + DrainerJobSuffix
  }

  /** The claim of the statefulset's ordinal `i` gets the job "syslogng-<i>-drainer". */
  lemma OrdinalJobName(bufVolName: string, stsName: string, i: nat)
    ensures var claim := bufVolName + "-" + stsName + "-" + Strings.Decimal(i);
      HasSeparator(claim) && JobName(claim) == StatefulSetName + "-" + Strings.Decimal(i) + DrainerJobSuffix
  {
    var d := Strings.Decimal(i);
    var x := bufVolName + "-" + stsName;
    var claim := bufVolName + "-" + stsName + "-" + d;
    assert claim == x + ['-'] + d;
    assert claim[|x|] == '-';
    Strings.LastIndexOfAppendedSeparator(x, '-', d);
    assert claim[|x|..] == "-" + d;
  }

  /** The job's pod spec before the extra volumes are applied. */
  function DrainerPodSpec(lg: Logging, b: Builders, claim: string): (ps: PodSpec)
    ensures var base := b.syslogNGContainer(WithoutSyslogNGOutLogrotate(lg.spec));
      && |ps.containers| == (if b.bufferMetricsSidecar.Some? then 3 else 2)
      && ps.containers[0].volumeMounts == base.volumeMounts + [VolumeMount(BufferVolumeName(lg), BufferPath, false)]
      && ps.containers[0].(volumeMounts := base.volumeMounts) == base
      && ps.containers[1] == DrainWatchContainer(lg.spec.drain, BufferVolumeName(lg))
      && (b.bufferMetricsSidecar.Some? ==> ps.containers[2] == b.bufferMetricsSidecar.value)
    ensures ps.volumes == b.generatedVolumes + [Volume(BufferVolumeName(lg), ClaimSource(claim))]
    ensures ps.restartPolicy == RestartNever
    ensures ps.serviceAccountName == ServiceAccountName(lg)
    ensures ps.imagePullSecrets == lg.spec.imagePullSecrets && ps.nodeSelector == lg.spec.nodeSelector
    ensures ps.priorityClassName == lg.spec.podPriorityClassName
  {
    var bufVolName := BufferVolumeName(lg);
    var base := b.syslogNGContainer(WithoutSyslogNGOutLogrotate(lg.spec));
    var dataMover := base.(volumeMounts := base.volumeMounts + [VolumeMount(bufVolName, BufferPath, false)]);
    var containers := [dataMover, DrainWatchContainer(lg.spec.drain, bufVolName)] +
      (if b.bufferMetricsSidecar.Some? then [b.bufferMetricsSidecar.value] else []);
    PodSpec(
      volumes := b.generatedVolumes + [Volume(bufVolName, ClaimSource(claim))],
      serviceAccountName := ServiceAccountName(lg),
      imagePullSecrets := lg.spec.imagePullSecrets,
      containers := containers,
      nodeSelector := lg.spec.nodeSelector,
      priorityClassName := lg.spec.podPriorityClassName,
      restartPolicy := RestartNever)
  }

  /** Applies the extra volumes in order, stopping at the first that fails. */
  function ApplyExtraVolumes(apply: (ExtraVolume, PodSpec) -> Result<PodSpec, string>, evs: seq<ExtraVolume>, ps: PodSpec)
    : (r: Result<PodSpec, string>)
    ensures evs == [] ==> r == Ok(ps)
    ensures r.Err? ==> exists k, q :: 0 <= k < |evs| && apply(evs[k], q) == Err(r.error)
  {
    if evs == [] then Ok(ps)
    else match apply(evs[0], ps)
      case Err(e) => Err(e)
      case Ok(next) =>
        var rest := ApplyExtraVolumes(apply, evs[1..], next);
        assert rest.Err? ==> exists k, q :: 0 <= k < |evs| - 1 && apply(evs[1..][k], q) == Err(rest.error);
        rest
  }

  /** Applying a list in two parts: the second part starts from the spec the first part left,
      and is skipped when the first part failed. */
  lemma {:induction false} ApplyExtraVolumesSplit(apply: (ExtraVolume, PodSpec) -> Result<PodSpec, string>,
                                                  first: seq<ExtraVolume>, second: seq<ExtraVolume>, ps: PodSpec)
    ensures ApplyExtraVolumes(apply, first + second, ps) ==
      match ApplyExtraVolumes(apply, first, ps)
      case Err(e) => Err(e)
      case Ok(q) => ApplyExtraVolumes(apply, second, q)
    decreases |first|
  {
    if first == [] {
      assert first + second == second;
    } else {
      assert (first + second)[0] == first[0];
      assert (first + second)[1..] == first[1..] + second;
      if apply(first[0], ps).Ok? {
        ApplyExtraVolumesSplit(apply, first[1..], second, apply(first[0], ps).value);
      }
    }
  }

  /** The first extra volume that fails to apply, after the ones before it applied, fails the
      whole application with its own error. */
  lemma ApplyFailureStopsBuild(apply: (ExtraVolume, PodSpec) -> Result<PodSpec, string>,
                               evs: seq<ExtraVolume>, ps: PodSpec, k: nat, q: PodSpec)
    requires k < |evs|
    requires ApplyExtraVolumes(apply, evs[..k], ps) == Ok(q)
    requires apply(evs[k], q).Err?
    ensures ApplyExtraVolumes(apply, evs, ps) == Err(apply(evs[k], q).error)
  {
    assert evs == evs[..k] + evs[k..];
    ApplyExtraVolumesSplit(apply, evs[..k], evs[k..], ps);
    assert evs[k..][0] == evs[k];
  }

  /** When the application succeeds, every extra volume applied to the spec the ones before it
      left, and the result is the last of these specs. */
  lemma ApplySuccessAppliedEach(apply: (ExtraVolume, PodSpec) -> Result<PodSpec, string>,
                                evs: seq<ExtraVolume>, ps: PodSpec, k: nat)
    requires ApplyExtraVolumes(apply, evs, ps).Ok?
    requires k < |evs|
    ensures ApplyExtraVolumes(apply, evs[..k], ps).Ok?
    ensures apply(evs[k], ApplyExtraVolumes(apply, evs[..k], ps).value).Ok?
    ensures ApplyExtraVolumes(apply, evs[..k + 1], ps) == apply(evs[k], ApplyExtraVolumes(apply, evs[..k], ps).value)
  {
    assert evs == evs[..k] + evs[k..];
    ApplyExtraVolumesSplit(apply, evs[..k], evs[k..], ps);
    assert evs[..k + 1] == evs[..k] + [evs[k]];
    ApplyExtraVolumesSplit(apply, evs[..k], [evs[k]], ps);
    assert evs[k..][0] == evs[k];
    var q := ApplyExtraVolumes(apply, evs[..k], ps).value;
    assert [evs[k]][1..] == [];
    if apply(evs[k], q).Ok? {
      assert ApplyExtraVolumes(apply, [evs[k]], q) == ApplyExtraVolumes(apply, [], apply(evs[k], q).value);
    }
  }

  /** The source slices the claim's name at its last '-' only once every extra volume applied, so
      a claim without '-' reaches that slice (where the Go code panics) only then. */
  predicate Buildable(lg: Logging, b: Builders, pvc: PersistentVolumeClaim) {
    ApplyExtraVolumes(b.applyVolumeForPodSpec, lg.spec.extraVolumes, DrainerPodSpec(lg, b, pvc.name)).Ok? ==>
      HasSeparator(pvc.name)
  }

  /** The drainer job for a claim, or the error of the first extra volume that could not be applied. */
  function DrainerJob(lg: Logging, b: Builders, pvc: PersistentVolumeClaim): (r: Result<Job, string>)
    requires Buildable(lg, b, pvc)
    ensures var applied := ApplyExtraVolumes(b.applyVolumeForPodSpec, lg.spec.extraVolumes, DrainerPodSpec(lg, b, pvc.name));
      && (r.Ok? <==> applied.Ok?)
      && (r.Ok? ==> r.value.template.spec == applied.value)
      && (r.Err? ==> r.error == applied.error)
    ensures r.Ok? ==> HasSeparator(pvc.name)
    ensures r.Ok? ==> r.value.meta == ObjectMeta(JobName(pvc.name), ComponentDrainer)
    ensures r.Ok? ==> r.value.template.labels == b.drainerLabels && r.value.template.annotations == lg.spec.drain.annotations
    ensures r.Ok? ==> r.value.status == JobStatus(None, 0, 0)
    ensures lg.spec.extraVolumes == [] ==> r.Ok? && r.value.template.spec == DrainerPodSpec(lg, b, pvc.name)
    ensures r.Err? ==> exists k, q :: (0 <= k < |lg.spec.extraVolumes| &&
      b.applyVolumeForPodSpec(lg.spec.extraVolumes[k], q) == Err(r.error))
  {
    match ApplyExtraVolumes(b.applyVolumeForPodSpec, lg.spec.extraVolumes, DrainerPodSpec(lg, b, pvc.name))
    case Err(e) => Err(e)
    case Ok(spec) =>
      Ok(Job(
        ObjectMeta(JobName(pvc.name), ComponentDrainer),
        PodTemplate(b.drainerLabels, lg.spec.drain.annotations, spec),
        JobStatus(None, 0, 0)))
  }

  /** An extra volume that fails to apply fails the build with its error, whatever the claim's
      name: the name is sliced only after every extra volume applied. */
  lemma ExtraVolumeFailureFailsDrainerJob(lg: Logging, b: Builders, pvc: PersistentVolumeClaim, k: nat, q: PodSpec)
    requires k < |lg.spec.extraVolumes|
    requires ApplyExtraVolumes(b.applyVolumeForPodSpec, lg.spec.extraVolumes[..k], DrainerPodSpec(lg, b, pvc.name)) == Ok(q)
    requires b.applyVolumeForPodSpec(lg.spec.extraVolumes[k], q).Err?
    ensures Buildable(lg, b, pvc)
    ensures DrainerJob(lg, b, pvc) == Err(b.applyVolumeForPodSpec(lg.spec.extraVolumes[k], q).error)
  {
    ApplyFailureStopsBuild(b.applyVolumeForPodSpec, lg.spec.extraVolumes, DrainerPodSpec(lg, b, pvc.name), k, q);
  }

  /** drainerJobFor: assembles the job by appending to the container's mounts, the container list
      and the pod's volumes, then applies the extra volumes one by one. */
  method DrainerJobFor(lg: Logging, b: Builders, pvc: PersistentVolumeClaim) returns (r: Result<Job, string>)
    requires Buildable(lg, b, pvc)
    ensures r == DrainerJob(lg, b, pvc)
  {
    var bufVolName := BufferVolumeName(lg);

    var dataMover := b.syslogNGContainer(WithoutSyslogNGOutLogrotate(lg.spec));
    dataMover := dataMover.(volumeMounts := dataMover.volumeMounts + [VolumeMount(bufVolName, BufferPath, false)]);
    var containers := [dataMover, DrainWatchContainer(lg.spec.drain, bufVolName)];
    if b.bufferMetricsSidecar.Some? {
      containers := containers + [b.bufferMetricsSidecar.value];
    }

    var spec := PodSpec(
      volumes := b.generatedVolumes,
      serviceAccountName := ServiceAccountName(lg),
      imagePullSecrets := lg.spec.imagePullSecrets,
      containers := containers,
      nodeSelector := lg.spec.nodeSelector,
      priorityClassName := lg.spec.podPriorityClassName,
      restartPolicy := RestartNever);
    spec := spec.(volumes := spec.volumes + [Volume(bufVolName, ClaimSource(pvc.name))]);
    assert spec == DrainerPodSpec(lg, b, pvc.name);

    var evs := lg.spec.extraVolumes;
    for i := 0 to |evs|
      invariant ApplyExtraVolumes(b.applyVolumeForPodSpec, evs[i..], spec) ==
        ApplyExtraVolumes(b.applyVolumeForPodSpec, evs, DrainerPodSpec(lg, b, pvc.name))
    {
      var applied := b.applyVolumeForPodSpec(evs[i], spec);
      if applied.Err? {
        return Err(applied.error);
      }
      assert evs[i..][1..] == evs[i + 1..];
      spec := applied.value;
    }
    assert evs[|evs|..] == [];
    r := Ok(Job(
      ObjectMeta(StatefulSetName + pvc.name[Strings.LastIndex(pvc.name, '-')..] + DrainerJobSuffix, ComponentDrainer),
      PodTemplate(b.drainerLabels, lg.spec.drain.annotations, spec),
      JobStatus(None, 0, 0)));
  }
}
