/** The ClusterPolicy resource: its spec, its status and the values computed from them. */
module Policy {

  datatype Option<+T> = None | Some(value: T)

  /** The state reported on a ClusterPolicy. `Unset` is a status nobody has written yet. */
  datatype State = Unset | Ignored | Ready | NotReady | Disabled

  datatype Status = Status(state: State, namespace: string)

  datatype EnvVar = EnvVar(name: string, value: string)

  datatype ContainerRuntimeSpec = ContainerRuntimeSpec(
    enabled: Option<bool>, runtimeClass: string, setAsDefault: Option<bool>,
    repository: string, image: string, tag: string, imagePullPolicy: string,
    imagePullSecrets: seq<string>, env: seq<EnvVar>, installDir: string)

  datatype DevicePluginSpec = DevicePluginSpec(
    enabled: Option<bool>, repository: string, image: string, tag: string, imagePullPolicy: string,
    imagePullSecrets: seq<string>, env: seq<EnvVar>)

  datatype OsDist = OsDist(
    osId: string, osMajorVersion: string, version: string,
    xrmInstallation: Option<bool>, shellFlashEnabled: Option<bool>, cards: seq<string>,
    repository: string, image: string, tag: string, imagePullPolicy: string,
    imagePullSecrets: seq<string>)

  datatype HostSetupSpec = HostSetupSpec(enabled: Option<bool>, osDists: seq<OsDist>)

  datatype Spec = Spec(
    defaultRuntime: string, containerRuntime: ContainerRuntimeSpec,
    devicePlugin: DevicePluginSpec, hostSetup: HostSetupSpec)

  /** A ClusterPolicy as the API server stores it, under its name. */
  datatype Stored = Stored(uid: nat, spec: Spec, status: Status)

  /** What the operator enforces: the identity and the spec of a policy. */
  datatype Subject = Subject(name: string, uid: nat, spec: Spec)

  /** A ClusterPolicy as the operator fetched it. */
  datatype Instance = Instance(subject: Subject, status: Status)

  /** An optional flag of the spec counts as true when it is left out. */
  predicate IsEnabled(flag: Option<bool>) {
    flag.None? || flag.value
  }

  const DEFAULT_RUNTIME_CLASS := "xilinx"

  function RuntimeClassName(spec: Spec): string {
    if spec.containerRuntime.runtimeClass != "" then spec.containerRuntime.runtimeClass
    else DEFAULT_RUNTIME_CLASS
  }

  predicate IsStateEnabled(spec: Spec, stateName: string) {
    if stateName == "state-container-runtime" then IsEnabled(spec.containerRuntime.enabled)
    else if stateName == "state-device-plugin" then IsEnabled(spec.devicePlugin.enabled)
    else if stateName == "state-host-setup" then IsEnabled(spec.hostSetup.enabled)
    else false
  }

  function ImagePullPolicy(policy: string): string {
    if policy == "Always" then "Always"
    else if policy == "Never" then "Never"
    else "IfNotPresent"
  }

  predicate IsDigest(tag: string) {
    "sha256:" <= tag
  }

  function ImagePath(repository: string, image: string, tag: string): string {
    if repository == "" && tag == "" then image
    else if IsDigest(tag) then repository + "/" + image + "@" + tag
    else repository + "/" + image + ":" + tag
  }
}
