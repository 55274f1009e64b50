/** The transformations as the operator runs them: they change a DaemonSet object in place. */
module GoTransforms {
  import opened Policy
  import opened Objects
  import opened Transforms
  import opened GoObjects

  /** How a transformation ended; `OutOfRange` is the panic of an index outside the containers. */
  datatype Progress = Transformed | SpecMissing | Refused | OutOfRange

  ghost predicate Carries(r: Progress, p: Prepared, now: DaemonSet) {
    match p
    case Built(d) => r.Transformed? && now == d
    case NoSpec => r.SpecMissing?
    case Rejected => r.Refused?
    case Malformed => r.OutOfRange?
  }

  /** What every transformation leaves as it was; it may only make the object refer to the shared labels. */
  twostate predicate Kept(obj: DaemonSetObject, labels: Labels)
    reads obj
  {
    && obj.Valid() && obj.Parts() <= old(obj.Parts()) + {labels} && obj.annotations == old(obj.annotations)
    && obj.name == old(obj.name) && obj.namespace == old(obj.namespace)
  }

  /** What the container runtime and the device plugin have in common. */
  method SetImageAndEnv(obj: DaemonSetObject, image: string, pullPolicy: string, secrets: seq<string>, env: seq<EnvVar>)
    requires obj.containers != []
    modifies obj`containers, obj`imagePullSecrets
    ensures obj.imagePullSecrets == old(obj.imagePullSecrets) + secrets
    ensures obj.containers != [] && obj.containers[1..] == old(obj.containers)[1..]
    ensures obj.containers[0] ==
            old(obj.containers[0]).(image := image, imagePullPolicy := ImagePullPolicy(pullPolicy),
                                    env := UpsertAll(old(obj.containers[0].env), env))
  {
    obj.SetMain(obj.containers[0].(image := image, imagePullPolicy := ImagePullPolicy(pullPolicy)));
    obj.AddPullSecrets(secrets);
    obj.SetContainerEnvs(env);
  }

  /** The container runtime's changes, given its volumes, their mounts and its script. */
  method SetUpRuntime(obj: DaemonSetObject, config: ContainerRuntimeSpec, volumes: seq<Volume>, mounts: seq<Mount>,
                      script: Script, labels: Labels)
    requires obj.Valid() && labels !in obj.Parts() && obj.containers != [] && |volumes| == |mounts|
    modifies obj.Parts()
    ensures Kept(obj, labels)
    ensures var d := old(obj.Value());
            var main := d.containers[0].(
              image := ImagePath(config.repository, config.image, config.tag),
              imagePullPolicy := ImagePullPolicy(config.imagePullPolicy),
              env := UpsertAll(d.containers[0].env, config.env),
              mounts := d.containers[0].mounts + mounts, command := SHELL, args := Bash(script));
            obj.Value() == d.(containers := d.containers[0 := main], volumes := d.volumes + volumes,
                              imagePullSecrets := d.imagePullSecrets + config.imagePullSecrets,
                              nodeSelector := Some(WithLabels(d.nodeSelector, labels.m)))
  {
    ghost var before := obj.containers;
    SetImageAndEnv(obj, ImagePath(config.repository, config.image, config.tag), config.imagePullPolicy,
                   config.imagePullSecrets, config.env);
    obj.AddVolumes(volumes, mounts);
    obj.SetMain(obj.containers[0].(command := SHELL, args := Bash(script)));
    obj.SetDaemonSetSelector(labels);
    ReplaceFirst(obj.containers, before);
  }

  method RunContainerRuntime(obj: DaemonSetObject, spec: Spec, runtime: string, labels: Labels) returns (r: Progress)
    requires obj.Valid() && labels !in obj.Parts() && labels.m == FPGA_NODE_LABELS
    modifies obj.Parts()
    ensures Kept(obj, labels)
    ensures Carries(r, TransformContainerRuntime(old(obj.Value()), spec, runtime), obj.Value())
  {
    if |obj.containers| == 0 {
      return OutOfRange;
    }
    SetUpRuntime(obj, spec.containerRuntime, RuntimeVolumes(spec, runtime), RuntimeMounts(runtime),
                 ToolkitScript(spec, runtime), labels);
    r := Transformed;
  }

  method RunDevicePlugin(obj: DaemonSetObject, spec: Spec, labels: Labels) returns (r: Progress)
    requires obj.Valid() && labels !in obj.Parts() && labels.m == FPGA_NODE_LABELS
    modifies obj.Parts()
    ensures Kept(obj, labels)
    ensures Carries(r, TransformDevicePlugin(old(obj.Value()), spec), obj.Value())
  {
    if |obj.containers| == 0 {
      return OutOfRange;
    }
    ghost var before := obj.containers;
    var config := spec.devicePlugin;
    SetImageAndEnv(obj, ImagePath(config.repository, config.image, config.tag), config.imagePullPolicy,
                   config.imagePullSecrets, config.env);
    obj.SetDaemonSetSelector(labels);
    ReplaceFirst(obj.containers, before);
    r := Transformed;
  }

  method RunHostSetup(obj: DaemonSetObject, spec: Spec, ghost labels: Labels) returns (r: Progress)
    requires obj.Valid()
    modifies obj
    ensures Kept(obj, labels)
    ensures Carries(r, TransformHostSetup(old(obj.Value()), spec), obj.Value())
  {
    if obj.nodeSelector == null {
      return Refused;
    }
    var selector := obj.nodeSelector.m;
    var dists := spec.hostSetup.osDists;
    var i := 0;
    while i < |dists|
      invariant i <= |dists| && forall k :: 0 <= k < i ==> !Matches(dists[k], selector)
    {
      if Matches(dists[i], selector) {
        r := SetUpHost(obj, dists[i], labels);
        return;
      }
      i := i + 1;
    }
    r := SpecMissing;
  }

  /** The two init containers install the software and flash the cards. */
  method SetUpInitContainers(obj: DaemonSetObject, os: OsDist)
    requires |obj.initContainers| >= 2
    modifies obj`initContainers
    ensures obj.initContainers ==
            old(obj.initContainers)[0 := SetupContainer(old(obj.initContainers[0]), os, XrtScript(os))]
                                   [1 := SetupContainer(old(obj.initContainers[1]), os, FlashScript(os))]
  {
    var image, pull := ImagePath(os.repository, os.image, os.tag), ImagePullPolicy(os.imagePullPolicy);
    var first := obj.initContainers[0].(image := image, imagePullPolicy := pull);
    var second := obj.initContainers[1].(image := image, imagePullPolicy := pull);
    var xrt := InstallXrt(os.version, true);
    if os.xrmInstallation.Some? && !os.xrmInstallation.value {
      xrt := InstallXrt(os.version, false);
    }
    first := first.(command := SHELL, args := Bash(xrt));
    if os.shellFlashEnabled.Some? && !os.shellFlashEnabled.value {
      second := second.(command := SHELL, args := Bash(FlashDisabled));
    } else {
      // The script made for the listed cards is never used: only the basic one goes out.
      var perCard: seq<(string, string)> := [];
      for k := 0 to |os.cards| {
        perCard := perCard + [(os.version, os.cards[k])];
      }
      second := second.(command := SHELL, args := Bash(FlashCards(os.version)));
    }
    obj.initContainers := obj.initContainers[0 := first][1 := second];
  }

  method SetUpHost(obj: DaemonSetObject, os: OsDist, ghost labels: Labels) returns (r: Progress)
    requires obj.Valid()
    modifies obj
    ensures Kept(obj, labels)
    ensures Carries(r, ApplyOsDist(old(obj.Value()), os), obj.Value())
  {
    if |obj.initContainers| < 2 || |obj.containers| == 0 {
      return OutOfRange;
    }
    ghost var before := obj.containers;
    SetUpInitContainers(obj, os);
    obj.SetMain(SetupContainer(obj.containers[0], os, ReportAndSleep));
    obj.AddPullSecrets(os.imagePullSecrets);
    ReplaceFirst(obj.containers, before);
    r := Transformed;
  }

  /** Looks the transformation up by the object's name and applies it. */
  method RunPreProcess(obj: DaemonSetObject, spec: Spec, runtime: string, labels: Labels) returns (r: Progress)
    requires obj.Valid() && labels !in obj.Parts() && labels.m == FPGA_NODE_LABELS
    modifies obj.Parts()
    ensures Kept(obj, labels)
    ensures Carries(r, PreProcess(old(obj.Value()), spec, runtime), obj.Value())
  {
    match TransformOf(obj.name) {
      case ContainerRuntime => r := RunContainerRuntime(obj, spec, runtime, labels);
      case DevicePlugin => r := RunDevicePlugin(obj, spec, labels);
      case HostSetup => r := RunHostSetup(obj, spec, labels);
      case NoTransform => r := Transformed;
    }
  }
}
