/** What the transformations put into the objects, over the fields of the spec and literal names and paths. */
module Contents {
  import opened Policy
  import opened Objects
  import opened Transforms
  import opened EnvLaws

  // ----- which transformation a template gets

  const SETUP_NAMES: set<string> :=
    {"host-setup-ubuntu18-daemonset", "host-setup-ubuntu20-daemonset", "host-setup-ubuntu22-daemonset",
     "host-setup-al2-daemonset", "host-setup-centos7-daemonset", "host-setup-centos8-daemonset"}

  lemma TransformByName(name: string)
    ensures TransformOf(name).ContainerRuntime? <==> name == "xilinx-container-runtime-daemonset"
    ensures TransformOf(name).DevicePlugin? <==> name == "device-plugin-daemonset"
    ensures TransformOf(name).HostSetup? <==> name in SETUP_NAMES
  {
    assert "xilinx-container-runtime-daemonset"[0] == 'x' && "device-plugin-daemonset"[0] == 'd';
    assert forall n :: n in SETUP_NAMES ==> n[0] == 'h';
  }

  // ----- images

  /** The image reference and pull policy of a container, for the three forms of a reference. */
  predicate ShowsImage(c: Container, repository: string, image: string, tag: string, pull: string) {
    && (repository == "" && tag == "" ==> c.image == image)
    && ("sha256:" <= tag ==> c.image == repository + "/" + image + "@" + tag)
    && (!("sha256:" <= tag) && (repository != "" || tag != "") ==> c.image == repository + "/" + image + ":" + tag)
    && c.imagePullPolicy == (if pull == "Always" || pull == "Never" then pull else "IfNotPresent")
  }

  lemma ImageShown(c: Container, repository: string, image: string, tag: string, pull: string)
    requires c.image == ImagePath(repository, image, tag) && c.imagePullPolicy == ImagePullPolicy(pull)
    ensures ShowsImage(c, repository, image, tag, pull)
  {
  }

  /** The first container is replaced and the others are those of the template. */
  predicate FirstReplaced(made: seq<Container>, template: seq<Container>) {
    |made| == |template| > 0 && made[1..] == template[1..]
  }

  /** The template's selector and the label of nodes with an FPGA, which wins. */
  ghost predicate SelectsFpga(made: Option<map<string, string>>, template: Option<map<string, string>>) {
    made == Some((if template.Some? then template.value else map[])
                 ["feature.node.kubernetes.io/pci-1200_10ee.present" := "true"])
  }

  lemma FpgaSelected(template: Option<map<string, string>>)
    ensures SelectsFpga(Some(WithLabels(template, FPGA_NODE_LABELS)), template)
  {
    var key := "feature.node.kubernetes.io/pci-1200_10ee.present";
    assert FPGA_NODE_LABELS == map[key := "true"];
    if template.Some? {
      assert template.value + map[key := "true"] == template.value[key := "true"];
    } else {
      assert map[key := "true"] == map[][key := "true"];
    }
  }

  // ----- device plugin

  /** The plugin runs the policy's image with the policy's environment over the template's, on nodes with an FPGA;
      nothing else of the template is changed. */
  ghost predicate PluginAsAsked(o: DaemonSet, d: DaemonSet, spec: Spec) {
    && FirstReplaced(o.containers, d.containers)
    && o == d.(containers := o.containers, imagePullSecrets := d.imagePullSecrets + spec.devicePlugin.imagePullSecrets,
               nodeSelector := o.nodeSelector)
    && SelectsFpga(o.nodeSelector, d.nodeSelector)
    && var made, c, g := o.containers[0], d.containers[0], spec.devicePlugin;
    && ShowsImage(made, g.repository, g.image, g.tag, g.imagePullPolicy)
    && UniqueNames(made.env) && AsMap(made.env) == AsMap(c.env) + AsMap(g.env)
    && made == c.(image := made.image, imagePullPolicy := made.imagePullPolicy, env := made.env)
  }

  lemma PluginContents(d: DaemonSet, spec: Spec, runtime: string)
    requires d.name == "device-plugin-daemonset" && d.containers != [] && UniqueNames(d.containers[0].env)
    ensures var p := PreProcess(d, spec, runtime); p.Built? && PluginAsAsked(p.obj, d, spec)
  {
    TransformByName(d.name);
    var o, g := PreProcess(d, spec, runtime).obj, spec.devicePlugin;
    UpsertAllOverrides(d.containers[0].env, g.env);
    ImageShown(o.containers[0], g.repository, g.image, g.tag, g.imagePullPolicy);
    FpgaSelected(d.nodeSelector);
    assert o.containers[1..] == d.containers[1..];
  }

  // ----- container runtime

  /** The last part of a path behind its last slash. */
  lemma {:induction false} BaseOf(dir: string, base: string)
    requires '/' !in base
    ensures AfterLastSlash(dir + "/" + base) == base
  {
    var path := dir + "/" + base;
    assert path[|dir|] == '/';
    if dir == "" {
      assert path[1..] == base;
    } else {
      assert path[1..] == dir[1..] + "/" + base;
      BaseOf(dir[1..], base);
    }
  }

  /** The files of a runtime on the node: its configuration and its socket, each as a directory and a name. A runtime
      of another name has none. */
  datatype Files = Files(configDir: string, config: string, socketDir: string, socket: string)

  const DOCKER_FILES := Files("/etc/docker", "daemon.json", "/var/run", "docker.sock")
  const CONTAINERD_FILES := Files("/etc/containerd", "config.toml", "/var/run/containerd", "containerd.sock")

  function FilesOf(runtime: string): Option<Files> {
    if runtime == "docker" then Some(DOCKER_FILES)
    else if runtime == "containerd" then Some(CONTAINERD_FILES)
    else None
  }

  predicate ShowsFiles(runtime: string, f: Files) {
    && RuntimeConfig(runtime) == f.configDir + "/" + f.config
    && RuntimeSocket(runtime) == f.socketDir + "/" + f.socket
    && PathBase(RuntimeConfig(runtime)) == f.config && PathBase(RuntimeSocket(runtime)) == f.socket
  }

  lemma DockerConfig()
    ensures "/etc/docker/daemon.json" == "/etc/docker" + "/" + "daemon.json"
    ensures '/' !in "daemon.json"
  {
  }

  lemma DockerSocket()
    ensures "/var/run/docker.sock" == "/var/run" + "/" + "docker.sock"
    ensures '/' !in "docker.sock"
  {
  }

  lemma ContainerdConfig()
    ensures "/etc/containerd/config.toml" == "/etc/containerd" + "/" + "config.toml"
    ensures '/' !in "config.toml"
  {
  }

  lemma ContainerdSocket()
    ensures "/var/run/containerd/containerd.sock" == "/var/run/containerd" + "/" + "containerd.sock"
    ensures '/' !in "containerd.sock"
  {
  }

  lemma FilesByName(runtime: string, f: Files)
    requires RuntimeConfig(runtime) == f.configDir + "/" + f.config && '/' !in f.config
    requires RuntimeSocket(runtime) == f.socketDir + "/" + f.socket && '/' !in f.socket
    ensures ShowsFiles(runtime, f)
  {
    BaseOf(f.configDir, f.config);
    BaseOf(f.socketDir, f.socket);
  }

  lemma FilesShown(runtime: string)
    ensures RuntimeString(runtime) == if FilesOf(runtime).Some? then runtime else ""
    ensures match FilesOf(runtime)
            case Some(f) => ShowsFiles(runtime, f)
            case None =>
              && RuntimeConfig(runtime) == "" == RuntimeSocket(runtime)
              && PathBase(RuntimeConfig(runtime)) == "." == PathBase(RuntimeSocket(runtime))
  {
    if runtime == "docker" {
      DockerConfig();
      DockerSocket();
      FilesByName(runtime, DOCKER_FILES);
    } else if runtime == "containerd" {
      ContainerdConfig();
      ContainerdSocket();
      FilesByName(runtime, CONTAINERD_FILES);
    }
  }

  /** A directory of the node under a volume's name, and where the container sees it. */
  datatype Share = Share(name: string, onNode: string, inContainer: string)

  /** What the toolkit shares with the node. */
  function Shares(spec: Spec, runtime: string): seq<Share> {
    var dir := if spec.containerRuntime.installDir == "" then "/usr/bin" else spec.containerRuntime.installDir;
    var f := FilesOf(runtime);
    [Share("install-dir", dir, "/host-usr/bin"),
     Share("config-dir", "/etc/xilinx-container-runtime", "/host-etc/xilinx-container-runtime")] +
    if f.Some? then
      [Share("runtime-config", f.value.configDir + "/" + f.value.config, "/runtime/config/" + f.value.config),
       Share("runtime-socket", f.value.socketDir + "/" + f.value.socket, "/runtime/socket/" + f.value.socket)]
    else
      [Share("runtime-config", "", "/runtime/config/."), Share("runtime-socket", "", "/runtime/socket/.")]
  }

  function VolumesOf(shares: seq<Share>): (vs: seq<Volume>)
    ensures |vs| == |shares| && forall k :: 0 <= k < |vs| ==> vs[k] == Volume(shares[k].name, shares[k].onNode)
  {
    if shares == [] then [] else [Volume(shares[0].name, shares[0].onNode)] + VolumesOf(shares[1..])
  }

  function MountsOf(shares: seq<Share>): (ms: seq<Mount>)
    ensures |ms| == |shares| && forall k :: 0 <= k < |ms| ==> ms[k] == Mount(shares[k].name, shares[k].inContainer)
  {
    if shares == [] then [] else [Mount(shares[0].name, shares[0].inContainer)] + MountsOf(shares[1..])
  }

  /** The toolkit runs the policy's image with the policy's environment over the template's, on nodes with an FPGA.
      Each share is a volume and the mount of that volume, and the script is given the runtime, the policy's
      directory, class and default, and the mounts of exactly the runtime's two files. */
  ghost predicate ToolkitAsAsked(o: DaemonSet, d: DaemonSet, spec: Spec, runtime: string) {
    && FirstReplaced(o.containers, d.containers)
    && var made, c, g, shares := o.containers[0], d.containers[0], spec.containerRuntime, Shares(spec, runtime);
    && o == d.(containers := o.containers, imagePullSecrets := d.imagePullSecrets + g.imagePullSecrets,
               volumes := d.volumes + VolumesOf(shares), nodeSelector := o.nodeSelector)
    && SelectsFpga(o.nodeSelector, d.nodeSelector)
    && ShowsImage(made, g.repository, g.image, g.tag, g.imagePullPolicy)
    && UniqueNames(made.env) && AsMap(made.env) == AsMap(c.env) + AsMap(g.env)
    && made == c.(image := made.image, imagePullPolicy := made.imagePullPolicy, env := made.env,
                  mounts := c.mounts + MountsOf(shares), command := ["/bin/bash"], args := made.args)
    && made.args ==
         [Text("-c"),
          InstallToolkit(if FilesOf(runtime).Some? then runtime else "", shares[0].onNode,
                         if g.runtimeClass == "" then "xilinx" else g.runtimeClass,
                         shares[2].inContainer, shares[3].inContainer, g.setAsDefault == Some(true))]
  }

  lemma PlacesShown(spec: Spec, runtime: string)
    ensures var shares := Shares(spec, runtime);
      && |shares| == 4
      && InstallDir(spec) == shares[0].onNode
      && RuntimeConfig(runtime) == shares[2].onNode && RuntimeSocket(runtime) == shares[3].onNode
      && ConfigMount(runtime) == shares[2].inContainer && SocketMount(runtime) == shares[3].inContainer
  {
    FilesShown(runtime);
  }

  lemma SharesShown(spec: Spec, runtime: string)
    ensures RuntimeVolumes(spec, runtime) == VolumesOf(Shares(spec, runtime))
    ensures RuntimeMounts(runtime) == MountsOf(Shares(spec, runtime))
  {
    PlacesShown(spec, runtime);
  }

  lemma ToolkitContents(d: DaemonSet, spec: Spec, runtime: string)
    requires d.name == "xilinx-container-runtime-daemonset" && d.containers != [] && UniqueNames(d.containers[0].env)
    ensures var p := PreProcess(d, spec, runtime); p.Built? && ToolkitAsAsked(p.obj, d, spec, runtime)
  {
    TransformByName(d.name);
    var o, g := PreProcess(d, spec, runtime).obj, spec.containerRuntime;
    UpsertAllOverrides(d.containers[0].env, g.env);
    ImageShown(o.containers[0], g.repository, g.image, g.tag, g.imagePullPolicy);
    FpgaSelected(d.nodeSelector);
    SharesShown(spec, runtime);
    PlacesShown(spec, runtime);
    FilesShown(runtime);
    assert o.containers[1..] == d.containers[1..];
  }

  // ----- host setup

  function ToLower(c: char): char {
    if c in "ABCDEFGHIJKLMNOPQRSTUVWXYZ" then (c as int + 32) as char else c
  }

  function Lowered(s: string): string {
    if s == "" then "" else [ToLower(s[0])] + Lowered(s[1..])
  }

  /** Capital letters are those between A and Z. */
  lemma Capital(c: char)
    ensures c in "ABCDEFGHIJKLMNOPQRSTUVWXYZ" <==> 'A' <= c <= 'Z'
  {
    var letters := "ABCDEFGHIJKLMNOPQRSTUVWXYZ";
    if 'A' <= c <= 'Z' {
      assert letters[c as int - 'A' as int] == c;
    }
  }

  lemma {:induction false} FoldIsLowered(a: string, b: string)
    ensures EqualFold(a, b) <==> Lowered(a) == Lowered(b)
  {
    if a != "" && b != "" {
      Capital(a[0]);
      Capital(b[0]);
      assert ToLower(a[0]) == LowerChar(a[0]) && ToLower(b[0]) == LowerChar(b[0]);
      FoldIsLowered(a[1..], b[1..]);
      FoldStep(a, b);
      assert Lowered(a)[0] == ToLower(a[0]) && Lowered(a)[1..] == Lowered(a[1..]);
      assert Lowered(b)[0] == ToLower(b[0]) && Lowered(b)[1..] == Lowered(b[1..]);
    }
  }

  lemma FoldStep(a: string, b: string)
    requires a != "" && b != ""
    ensures EqualFold(a, b) <==> LowerChar(a[0]) == LowerChar(b[0]) && EqualFold(a[1..], b[1..])
  {
    if EqualFold(a[1..], b[1..]) && LowerChar(a[0]) == LowerChar(b[0]) {
      forall k | 0 <= k < |a| ensures LowerChar(a[k]) == LowerChar(b[k]) {
        assert k > 0 ==> a[k] == a[1..][k - 1] && b[k] == b[1..][k - 1];
      }
    }
    if EqualFold(a, b) {
      forall k | 0 <= k < |a[1..]| ensures LowerChar(a[1..][k]) == LowerChar(b[1..][k]) {
        assert a[1..][k] == a[k + 1] && b[1..][k] == b[k + 1];
      }
    }
  }

  /** The value a selector asks a label to have, empty if it does not ask. */
  function Asks(selector: map<string, string>, key: string): string {
    if key in selector then selector[key] else ""
  }

  /** The entry is for the system the selector asks for: identifier and major version are the same in lower case. */
  predicate MadeFor(os: OsDist, selector: map<string, string>) {
    && Lowered(os.osId) == Lowered(Asks(selector, "feature.node.kubernetes.io/system-os_release.ID"))
    && Lowered(os.osMajorVersion) ==
       Lowered(Asks(selector, "feature.node.kubernetes.io/system-os_release.VERSION_ID.major"))
  }

  lemma MatchesIffMadeFor(os: OsDist, selector: map<string, string>)
    ensures Matches(os, selector) <==> MadeFor(os, selector)
  {
    FoldIsLowered(os.osId, Label(selector, OS_ID_LABEL));
    FoldIsLowered(os.osMajorVersion, Label(selector, OS_MAJOR_LABEL));
  }

  /** A container that runs a script with the entry's image. */
  predicate RunsScript(made: Container, c: Container, os: OsDist, script: Script) {
    && ShowsImage(made, os.repository, os.image, os.tag, os.imagePullPolicy)
    && made == c.(image := made.image, imagePullPolicy := made.imagePullPolicy, command := ["/bin/bash"],
                  args := [Text("-c"), script])
  }

  /** The host is set up from the entry: its version is installed, with XRM unless that is switched off, its cards are
      flashed to the version unless that is switched off, and then the pod stays. The system the template is
      pinned to and everything else of the template are kept. */
  predicate SetUpAsAsked(o: DaemonSet, d: DaemonSet, os: OsDist) {
    && |d.initContainers| >= 2 && d.containers != []
    && |o.initContainers| == |d.initContainers| && o.initContainers[2..] == d.initContainers[2..]
    && FirstReplaced(o.containers, d.containers)
    && RunsScript(o.initContainers[0], d.initContainers[0], os,
                  InstallXrt(os.version, os.xrmInstallation != Some(false)))
    && RunsScript(o.initContainers[1], d.initContainers[1], os,
                  if os.shellFlashEnabled == Some(false) then FlashDisabled else FlashCards(os.version))
    && RunsScript(o.containers[0], d.containers[0], os, ReportAndSleep)
    && o == d.(initContainers := o.initContainers, containers := o.containers,
               imagePullSecrets := d.imagePullSecrets + os.imagePullSecrets)
  }

  lemma SetUpContents(d: DaemonSet, os: OsDist)
    requires |d.initContainers| >= 2 && d.containers != []
    ensures var p := ApplyOsDist(d, os); p.Built? && SetUpAsAsked(p.obj, d, os)
  {
    var o := ApplyOsDist(d, os).obj;
    ImageShown(o.initContainers[0], os.repository, os.image, os.tag, os.imagePullPolicy);
    ImageShown(o.initContainers[1], os.repository, os.image, os.tag, os.imagePullPolicy);
    ImageShown(o.containers[0], os.repository, os.image, os.tag, os.imagePullPolicy);
    assert o.initContainers[2..] == d.initContainers[2..];
    assert o.containers[1..] == d.containers[1..];
  }

  /** The first entry made for a selector is the first that matches it. */
  lemma FirstMade(dists: seq<OsDist>, selector: map<string, string>)
    ensures var i := FirstMatch(dists, selector);
      && (i < |dists| ==> MadeFor(dists[i], selector))
      && forall k :: 0 <= k < i ==> !MadeFor(dists[k], selector)
  {
    forall k | 0 <= k < |dists| ensures Matches(dists[k], selector) <==> MadeFor(dists[k], selector) {
      MatchesIffMadeFor(dists[k], selector);
    }
  }

  /** Entry `k` is the first one made for the selector. */
  predicate FirstFor(dists: seq<OsDist>, selector: map<string, string>, k: nat) {
    k < |dists| && MadeFor(dists[k], selector) && forall m :: 0 <= m < k ==> !MadeFor(dists[m], selector)
  }

  /** A host-setup template is left out exactly if every entry of the policy differs from its selector in identifier or
      major version, in lower case; otherwise it is set up from the first entry that does not. */
  lemma HostSetupSelection(d: DaemonSet, spec: Spec, runtime: string)
    requires d.name in SETUP_NAMES && d.nodeSelector.Some? && |d.initContainers| >= 2 && d.containers != []
    ensures var p, dists, selector := PreProcess(d, spec, runtime), spec.hostSetup.osDists, d.nodeSelector.value;
      && (p.NoSpec? <==> forall os :: os in dists ==> !MadeFor(os, selector))
      && (p.Built? || p.NoSpec?)
      && (forall k: nat :: FirstFor(dists, selector, k) ==> p.Built? && SetUpAsAsked(p.obj, d, dists[k]))
  {
    TransformByName(d.name);
    assert PreProcess(d, spec, runtime) == TransformHostSetup(d, spec);
    SelectionByEntries(d, spec);
  }

  lemma SelectionByEntries(d: DaemonSet, spec: Spec)
    requires d.nodeSelector.Some? && |d.initContainers| >= 2 && d.containers != []
    ensures var p, dists, selector := TransformHostSetup(d, spec), spec.hostSetup.osDists, d.nodeSelector.value;
      && (p.NoSpec? <==> forall os :: os in dists ==> !MadeFor(os, selector))
      && (p.Built? || p.NoSpec?)
      && (forall k: nat :: FirstFor(dists, selector, k) ==> p.Built? && SetUpAsAsked(p.obj, d, dists[k]))
  {
    var dists, selector := spec.hostSetup.osDists, d.nodeSelector.value;
    var i := FirstMatch(dists, selector);
    FirstMade(dists, selector);
    if i < |dists| {
      SetUpContents(d, dists[i]);
      assert dists[i] in dists;
      assert forall k: nat :: FirstFor(dists, selector, k) ==> k == i;
    }
  }

  /** A template of any other name is deployed as it is. */
  lemma OtherTemplatesKept(d: DaemonSet, spec: Spec, runtime: string)
    requires d.name !in SETUP_NAMES + {"xilinx-container-runtime-daemonset", "device-plugin-daemonset"}
    ensures PreProcess(d, spec, runtime) == Built(d)
  {
    TransformByName(d.name);
  }
}
