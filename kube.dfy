/** The shapes of the Kubernetes objects the drain coordinator reads and writes, reduced to the
    fields it looks at or sets. */
module Kube {
  import opened Wrappers

  type Labels = map<string, string>

  /** A pod volume is either backed by a persistent volume claim or by something else
      (config map, secret, empty dir, ...). */
  datatype VolumeSource = ClaimSource(claimName: string) | OtherSource(kind: string)

  datatype Volume = Volume(name: string, source: VolumeSource)

  datatype VolumeMount = VolumeMount(name: string, mountPath: string, readOnly: bool)

  datatype EnvVar = EnvVar(name: string, value: string)

  datatype Container = Container(
    name: string,
    image: string,
    imagePullPolicy: string,
    env: seq<EnvVar>,
    volumeMounts: seq<VolumeMount>)

  datatype RestartPolicy = RestartAlways | RestartOnFailure | RestartNever

  datatype PodSpec = PodSpec(
    volumes: seq<Volume>,
    serviceAccountName: string,
    imagePullSecrets: seq<string>,
    containers: seq<Container>,
    nodeSelector: Labels,
    priorityClassName: string,
    restartPolicy: RestartPolicy)

  datatype Pod = Pod(name: string, spec: PodSpec)

  datatype PersistentVolumeClaim = PersistentVolumeClaim(name: string, labels: Labels)

  /** The component a managed object belongs to; it selects the object's identifying labels. */
  datatype Component = ComponentSyslogNG | ComponentDrainer

  datatype ObjectMeta = ObjectMeta(name: string, component: Component)

  datatype PodTemplate = PodTemplate(labels: Labels, annotations: Labels, spec: PodSpec)

  /** A job's status: `completionTime` is nil until the job completes; `succeeded` and `failed`
      count the job's pods in those phases. */
  datatype JobStatus = JobStatus(completionTime: Option<int>, succeeded: int, failed: int)

  datatype Job = Job(meta: ObjectMeta, template: PodTemplate, status: JobStatus)

  /** The cascade mode of a delete: wait for dependents, or let them go asynchronously. */
  datatype Propagation = Foreground | Background

  /** What the generic resource reconciler is asked to make true of an object. */
  datatype DesiredState = StatePresent | StateAbsent

  /** An error answered by the API server. `NotFound` is the one the coordinator ignores on patch
      and delete. */
  datatype StoreError = NotFound | Conflict | Failure(reason: string)

  /** The value of a label, with Go's map semantics: a missing key reads as the empty string. */
  function LabelValue(labels: Labels, key: string): (v: string)
    ensures key in labels ==> v == labels[key]
    ensures key !in labels ==> v == ""
  {
    if key in labels then labels[key] else ""
  }
}
