/** The part of the Logging custom resource the syslog-ng reconciler reads. */
module Api {
  import opened Wrappers
  import opened Kube

  /** An image reference; `reference` stands for RepositoryWithTag(), which is not part of this model. */
  datatype ImageSpec = ImageSpec(reference: string, pullPolicy: string)

  datatype DrainConfig = DrainConfig(enabled: bool, image: ImageSpec, annotations: Labels)

  /** The output log rotation settings, carried as an opaque value. */
  datatype OutLogrotate = OutLogrotate(settings: Labels)

  /** An extra volume the user asks to mount into the syslog-ng pods. */
  datatype ExtraVolume = ExtraVolume(volumeName: string, path: string, containerName: string)

  datatype SyslogNGSpec = SyslogNGSpec(
    disablePvc: bool,
    bufferClaimName: string,
    drain: DrainConfig,
    outLogrotate: Option<OutLogrotate>,
    extraVolumes: seq<ExtraVolume>,
    serviceAccount: string,
    imagePullSecrets: seq<string>,
    nodeSelector: Labels,
    podPriorityClassName: string)

  /** A Logging resource: its syslog-ng settings and its QualifiedName function (which prefixes a
      name with the resource's own; its definition is not part of this model). */
  datatype Logging = Logging(spec: SyslogNGSpec, qualify: string -> string)

  const StatefulSetName := "syslogng"
  const DefaultServiceAccountName := "syslogng"
  const BufferPath := "/buffers"

  /** The qualified name of the buffer volume, shared by the volume claim template, the pods'
      volumes and the drainer job's volume. */
  function BufferVolumeName(lg: Logging): string {
    lg.qualify(lg.spec.bufferClaimName)
  }

  function QualifiedStatefulSetName(lg: Logging): string {
    lg.qualify(StatefulSetName)
  }

  /** The service account the pods run as: the configured one, or the qualified default. */
  function ServiceAccountName(lg: Logging): (r: string)
    ensures lg.spec.serviceAccount != "" ==> r == lg.spec.serviceAccount
    ensures lg.spec.serviceAccount == "" ==> r == lg.qualify(DefaultServiceAccountName)
  {
    if lg.spec.serviceAccount != "" then lg.spec.serviceAccount else lg.qualify(DefaultServiceAccountName)
  }
}
