/** How a DaemonSet template becomes the DaemonSet a policy asks for, on values. */
module Transforms {
  import opened Policy
  import opened Objects

  const OS_ID_LABEL := "feature.node.kubernetes.io/system-os_release.ID"
  const OS_MAJOR_LABEL := "feature.node.kubernetes.io/system-os_release.VERSION_ID.major"
  const FPGA_NODE_LABELS: map<string, string> :=
    map["feature.node.kubernetes.io/pci-1200_10ee.present" := "true"]

  const DEFAULT_INSTALL_DIR := "/usr/bin"
  const DEFAULT_CONFIG_DIR := "/etc/xilinx-container-runtime"

  datatype Transform = ContainerRuntime | DevicePlugin | HostSetup | NoTransform

  function TransformOf(name: string): Transform {
    if name == "xilinx-container-runtime-daemonset" then ContainerRuntime
    else if name == "device-plugin-daemonset" then DevicePlugin
    else if name in ["host-setup-ubuntu18-daemonset", "host-setup-ubuntu20-daemonset",
                     "host-setup-ubuntu22-daemonset", "host-setup-al2-daemonset",
                     "host-setup-centos7-daemonset", "host-setup-centos8-daemonset"] then HostSetup
    else NoTransform
  }

  /** What preparing a template yields; `Malformed` is an index outside the template's containers. */
  datatype Prepared = Built(obj: DaemonSet) | NoSpec | Rejected | Malformed

  // ----- environment variables

  function FirstNamed(env: seq<EnvVar>, key: string): (i: nat)
    ensures i <= |env|
    ensures i < |env| ==> env[i].name == key
    ensures forall k :: 0 <= k < i ==> env[k].name != key
  {
    if env == [] || env[0].name == key then 0 else 1 + FirstNamed(env[1..], key)
  }

  /** Sets one variable: in place when a variable has that name, at the end otherwise. */
  function Upsert(env: seq<EnvVar>, key: string, value: string): seq<EnvVar> {
    var i := FirstNamed(env, key);
    if i < |env| then env[i := env[i].(value := value)] else env + [EnvVar(key, value)]
  }

  function UpsertAll(env: seq<EnvVar>, updates: seq<EnvVar>): seq<EnvVar>
    decreases |updates|
  {
    if updates == [] then env
    else UpsertAll(Upsert(env, updates[0].name, updates[0].value), updates[1..])
  }

  // ----- node selector

  function WithLabels(selector: Option<map<string, string>>, labels: map<string, string>): map<string, string> {
    if selector.None? then labels else selector.value + labels
  }

  // ----- container runtime

  function RuntimeConfig(runtime: string): string {
    if runtime == "docker" then "/etc/docker/daemon.json"
    else if runtime == "containerd" then "/etc/containerd/config.toml"
    else ""
  }

  function RuntimeSocket(runtime: string): string {
    if runtime == "docker" then "/var/run/docker.sock"
    else if runtime == "containerd" then "/var/run/containerd/containerd.sock"
    else ""
  }

  function RuntimeString(runtime: string): string {
    if runtime == "docker" then "docker" else if runtime == "containerd" then "containerd" else ""
  }

  /** The part of a path after its last slash, and a dot for the empty path. */
  function PathBase(path: string): string {
    if path == "" then "." else AfterLastSlash(path)
  }

  function AfterLastSlash(path: string): string {
    if '/' in path && path != "" then AfterLastSlash(path[1..]) else path
  }

  function InstallDir(spec: Spec): string {
    if spec.containerRuntime.installDir != "" then spec.containerRuntime.installDir else DEFAULT_INSTALL_DIR
  }

  function RuntimeVolumes(spec: Spec, runtime: string): seq<Volume> {
    [Volume("install-dir", InstallDir(spec)), Volume("config-dir", DEFAULT_CONFIG_DIR),
     Volume("runtime-config", RuntimeConfig(runtime)), Volume("runtime-socket", RuntimeSocket(runtime))]
  }

  function ConfigMount(runtime: string): string {
    "/runtime/config/" + PathBase(RuntimeConfig(runtime))
  }

  function SocketMount(runtime: string): string {
    "/runtime/socket/" + PathBase(RuntimeSocket(runtime))
  }

  function RuntimeMounts(runtime: string): seq<Mount> {
    [Mount("install-dir", "/host-usr/bin"), Mount("config-dir", "/host-etc/xilinx-container-runtime"),
     Mount("runtime-config", ConfigMount(runtime)), Mount("runtime-socket", SocketMount(runtime))]
  }

  function ToolkitScript(spec: Spec, runtime: string): Script {
    InstallToolkit(RuntimeString(runtime), InstallDir(spec), RuntimeClassName(spec),
                   ConfigMount(runtime), SocketMount(runtime),
                   spec.containerRuntime.setAsDefault == Some(true))
  }

  function Bash(script: Script): seq<Script> {
    [Text("-c"), script]
  }

  const SHELL: seq<string> := ["/bin/bash"]

  function RuntimeContainer(c: Container, spec: Spec, runtime: string): Container {
    var config := spec.containerRuntime;
    c.(image := ImagePath(config.repository, config.image, config.tag),
       imagePullPolicy := ImagePullPolicy(config.imagePullPolicy),
       env := UpsertAll(c.env, config.env),
       mounts := c.mounts + RuntimeMounts(runtime),
       command := SHELL,
       args := Bash(ToolkitScript(spec, runtime)))
  }

  function TransformContainerRuntime(d: DaemonSet, spec: Spec, runtime: string): Prepared {
    if d.containers == [] then Malformed
    else
      Built(d.(containers := d.containers[0 := RuntimeContainer(d.containers[0], spec, runtime)],
               imagePullSecrets := d.imagePullSecrets + spec.containerRuntime.imagePullSecrets,
               volumes := d.volumes + RuntimeVolumes(spec, runtime),
               nodeSelector := Some(WithLabels(d.nodeSelector, FPGA_NODE_LABELS))))
  }

  // ----- device plugin

  function PluginContainer(c: Container, config: DevicePluginSpec): Container {
    c.(image := ImagePath(config.repository, config.image, config.tag),
       imagePullPolicy := ImagePullPolicy(config.imagePullPolicy),
       env := UpsertAll(c.env, config.env))
  }

  function TransformDevicePlugin(d: DaemonSet, spec: Spec): Prepared {
    if d.containers == [] then Malformed
    else
      Built(d.(containers := d.containers[0 := PluginContainer(d.containers[0], spec.devicePlugin)],
               imagePullSecrets := d.imagePullSecrets + spec.devicePlugin.imagePullSecrets,
               nodeSelector := Some(WithLabels(d.nodeSelector, FPGA_NODE_LABELS))))
  }

  // ----- host setup

  function LowerChar(c: char): char {
    if 'A' <= c <= 'Z' then (c as int - 'A' as int + 'a' as int) as char else c
  }

  predicate EqualFold(a: string, b: string) {
    |a| == |b| && forall k :: 0 <= k < |a| ==> LowerChar(a[k]) == LowerChar(b[k])
  }

  function Label(selector: map<string, string>, key: string): string {
    if key in selector then selector[key] else ""
  }

  predicate Matches(os: OsDist, selector: map<string, string>) {
    EqualFold(os.osId, Label(selector, OS_ID_LABEL)) && EqualFold(os.osMajorVersion, Label(selector, OS_MAJOR_LABEL))
  }

  /** The position of the first entry made for the selector, and the length when there is none. */
  function FirstMatch(dists: seq<OsDist>, selector: map<string, string>): (i: nat)
    ensures i <= |dists|
    ensures i < |dists| ==> Matches(dists[i], selector)
    ensures forall k :: 0 <= k < i ==> !Matches(dists[k], selector)
  {
    if dists == [] || Matches(dists[0], selector) then 0 else 1 + FirstMatch(dists[1..], selector)
  }

  function SetupContainer(c: Container, os: OsDist, script: Script): Container {
    c.(image := ImagePath(os.repository, os.image, os.tag), imagePullPolicy := ImagePullPolicy(os.imagePullPolicy),
       command := SHELL, args := Bash(script))
  }

  function XrtScript(os: OsDist): Script {
    InstallXrt(os.version, IsEnabled(os.xrmInstallation))
  }

  function FlashScript(os: OsDist): Script {
    if IsEnabled(os.shellFlashEnabled) then FlashCards(os.version) else FlashDisabled
  }

  function ApplyOsDist(d: DaemonSet, os: OsDist): Prepared {
    if |d.initContainers| < 2 || d.containers == [] then Malformed
    else
      Built(d.(
        initContainers := d.initContainers[0 := SetupContainer(d.initContainers[0], os, XrtScript(os))]
                                          [1 := SetupContainer(d.initContainers[1], os, FlashScript(os))],
        containers := d.containers[0 := SetupContainer(d.containers[0], os, ReportAndSleep)],
        imagePullSecrets := d.imagePullSecrets + os.imagePullSecrets))
  }

  function TransformHostSetup(d: DaemonSet, spec: Spec): Prepared {
    if d.nodeSelector.None? then Rejected
    else
      var dists := spec.hostSetup.osDists;
      var i := FirstMatch(dists, d.nodeSelector.value);
      if i < |dists| then ApplyOsDist(d, dists[i]) else NoSpec
  }

  function PreProcess(d: DaemonSet, spec: Spec, runtime: string): Prepared {
    match TransformOf(d.name)
    case ContainerRuntime => TransformContainerRuntime(d, spec, runtime)
    case DevicePlugin => TransformDevicePlugin(d, spec)
    case HostSetup => TransformHostSetup(d, spec)
    case NoTransform => Built(d)
  }
}
