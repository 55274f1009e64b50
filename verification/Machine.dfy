/** The controller and one reconcile pass, as functions of the controller's fields and the cluster. */
module Machine {
  import opened Policy
  import opened Objects
  import opened Transforms
  import opened Cluster
  import opened Enforcement

  // ----- registration of the states

  /** A manifest file of a state directory, in sorted file order and already classified by kind. */
  datatype Manifest = DaemonSetManifest(ds: DaemonSet) | ClassManifest(rc: RuntimeClass) | OtherManifest

  datatype Control = DaemonSetControl | ClassControl

  datatype Resources = Resources(daemonSets: seq<DaemonSet>, runtimeClass: RuntimeClass)

  const NO_CLASS := RuntimeClass("", "", None, "")

  datatype Registration = Registration(resources: Resources, controls: seq<Control>)

  const EMPTY_REGISTRATION := Registration(Resources([], NO_CLASS), [])

  function AddManifest(r: Registration, m: Manifest): Registration {
    match m
    case DaemonSetManifest(ds) =>
      Registration(r.resources.(daemonSets := r.resources.daemonSets + [ds]),
                   if r.resources.daemonSets == [] then r.controls + [DaemonSetControl] else r.controls)
    case ClassManifest(rc) =>
      Registration(r.resources.(runtimeClass := rc), r.controls + [ClassControl])
    case OtherManifest => r
  }

  function Register(manifests: seq<Manifest>): Registration {
    if manifests == [] then EMPTY_REGISTRATION
    else AddManifest(Register(manifests[..|manifests| - 1]), manifests[|manifests| - 1])
  }

  const STATE_NAMES: seq<string> := ["state-container-runtime", "state-device-plugin", "state-host-setup"]

  /** What stays the same while the operator's image and deployment do. */
  datatype Config = Config(
    hash: Hash, namespaceVariable: string,
    runtimeManifests: seq<Manifest>, pluginManifests: seq<Manifest>, setupManifests: seq<Manifest>,
    caching: bool)

  function Namespace(cfg: Config): string {
    if cfg.namespaceVariable == "" then "default" else cfg.namespaceVariable
  }

  function Registrations(cfg: Config): seq<Registration> {
    [Register(cfg.runtimeManifests), Register(cfg.pluginManifests), Register(cfg.setupManifests)]
  }

  // ----- the controller

  datatype Controller = Controller(
    singleton: Option<Instance>, namespace: string,
    resources: seq<Resources>, controlFuncs: seq<seq<Control>>, stateNames: seq<string>,
    idx: nat, runtime: string)

  const NEW_CONTROLLER := Controller(None, "", [], [], [], 0, "")

  predicate Initialised(cfg: Config, k: Controller) {
    var rs := Registrations(cfg);
    && k.singleton.Some?
    && k.namespace == Namespace(cfg)
    && k.resources == seq(3, i requires 0 <= i < 3 => rs[i].resources)
    && k.controlFuncs == seq(3, i requires 0 <= i < 3 => rs[i].controls)
    && k.stateNames == STATE_NAMES
  }

  // ----- initialisation

  datatype Version = Unreachable | Invalid | Valid

  /** What a pass finds out about the cluster besides stored objects. `None` is a failed list request;
      a node is given by its container runtime version string. */
  datatype Probe = Probe(version: Version, runtimes: Option<seq<string>>, labelsListed: bool, osListed: bool)

  /** The runtime a node's version string names. */
  function NodeRuntime(version: string): string {
    if "docker" <= version then "docker" else if "containerd" <= version then "containerd" else ""
  }

  /** The runtime of the first containerd node, else of the last recognised node. */
  function DetectFrom(nodes: seq<string>, runtime: string): string {
    if nodes == [] then runtime
    else
      var rt := NodeRuntime(nodes[0]);
      if rt == "" then DetectFrom(nodes[1..], runtime)
      else if rt == "containerd" then rt
      else DetectFrom(nodes[1..], rt)
  }

  function DetectRuntime(nodes: seq<string>, default: string): string {
    var found := DetectFrom(nodes, "");
    if found == "" then default else found
  }

  datatype InitResult = InitResult(controller: Controller, ok: bool)

  function Init(cfg: Config, k: Controller, policy: Instance, probe: Probe): InitResult {
    var k0 := k.(singleton := Some(policy), idx := 0);
    var first := |k0.controlFuncs| == 0;
    var k1 := if first then k0.(namespace := Namespace(cfg)) else k0;
    if first && (!probe.version.Valid? || probe.runtimes.None?) then InitResult(k1, false)
    else
      var rs := Registrations(cfg);
      var k2 :=
        if first then
          k1.(runtime := DetectRuntime(probe.runtimes.value, policy.subject.spec.defaultRuntime),
              resources := k1.resources + seq(3, i requires 0 <= i < 3 => rs[i].resources),
              controlFuncs := k1.controlFuncs + seq(3, i requires 0 <= i < 3 => rs[i].controls),
              stateNames := k1.stateNames + STATE_NAMES)
        else k1;
      InitResult(k2, probe.labelsListed && probe.osListed)
  }

  // ----- one step

  /** The controller's arrays run in parallel and the cursor points at a state. */
  predicate InRange(k: Controller) {
    && |k.resources| == |k.controlFuncs| == |k.stateNames|
    && k.idx < |k.controlFuncs|
  }

  function ContextFor(cfg: Config, policy: Subject, namespace: string, runtime: string): Context {
    Context(policy, namespace, cfg.hash, cfg.caching, d => PreProcess(d, policy.spec, runtime))
  }

  function ContextOf(cfg: Config, k: Controller): Context
    requires k.singleton.Some?
  {
    ContextFor(cfg, k.singleton.value.subject, k.namespace, k.runtime)
  }


  function RunControl(c: Context, enabled: bool, i: nat, n: nat, control: Control, r: Resources, w: World, s: Schedule)
    : Outgoing
  {
    match control
    case DaemonSetControl => DaemonSetsFrom(c, enabled, i, r.daemonSets, 0, Ready, w, s)
    case ClassControl => ApplyClass(c, enabled, i, n, r.runtimeClass, w, s)
  }

  /** The control functions of one state from the `n`-th on: a failure ends the step, and the last
      state other than Ready is the result. */
  function ControlsFrom(c: Context, enabled: bool, i: nat, n: nat, controls: seq<Control>, r: Resources,
                        result: State, w: World, s: Schedule): Outgoing
    requires n <= |controls|
    decreases |controls| - n
  {
    if n == |controls| then Outgoing(w, Returned(result))
    else
      var o := RunControl(c, enabled, i, n, controls[n], r, w, s);
      if !o.verdict.Returned? then o
      else
        ControlsFrom(c, enabled, i, n + 1, controls, r,
                     if o.verdict.state != Ready then o.verdict.state else result, o.w, s)
  }

  function Step(c: Context, k: Controller, w: World, s: Schedule): Outgoing
    requires InRange(k)
  {
    var enabled := IsStateEnabled(c.policy.spec, k.stateNames[k.idx]);
    ControlsFrom(c, enabled, k.idx, 0, k.controlFuncs[k.idx], k.resources[k.idx], Ready, w, s)
  }

  // ----- the status of the policy

  /** Fetches the stored policy again and writes the state if it differs. */
  function UpdateState(w: World, i: nat, name: string, state: State, namespace: string, s: Schedule): World {
    if !s(StatusRead(i)).fault.Working? || name !in w.policies || w.policies[name].status.state == state then w
    else
      var status := Status(state, namespace);
      w.(policies := if s(StatusWrite(i)).fault.Refused? then w.policies
                     else w.policies[name := w.policies[name].(status := status)],
         log := w.log + [PutStatus(name, status)])
  }

  // ----- one pass

  /** What a pass asks of the work queue; `Panic` ends the process. */
  datatype Ending = Finished(requeue: bool, error: bool) | Panic

  datatype Pass = Pass(controller: Controller, w: World, ending: Ending)

  /** The world after the step at the cursor and the demotion of the policy that may follow it: after an
      error always, after NotReady if the policy was Ready when it was fetched. */
  function AfterStep(c: Context, k: Controller, name: string, wasReady: bool, w: World, s: Schedule): World
    requires InRange(k)
  {
    var o := Step(c, k, w, s);
    if o.verdict.Failed? || (wasReady && o.verdict == Returned(NotReady))
    then UpdateState(o.w, k.idx, name, NotReady, k.namespace, s) else o.w
  }

  function Overall(overall: State, state: State): State {
    if state == NotReady then NotReady else overall
  }

  /** The step loop of a pass, from the cursor on. */
  function StepsFrom(c: Context, k: Controller, name: string, wasReady: bool, overall: State, w: World, s: Schedule)
    : Pass
    requires InRange(k)
    decreases |k.controlFuncs| - k.idx
  {
    var w' := AfterStep(c, k, name, wasReady, w, s);
    match Step(c, k, w, s).verdict
    case Crashed => Pass(k, w', Panic)
    case Failed => Pass(k, w', Finished(true, true))
    case Returned(state) =>
      var k' := k.(idx := k.idx + 1);
      if k'.idx != |k'.controlFuncs| then StepsFrom(c, k', name, wasReady, Overall(overall, state), w', s)
      else Conclude(k', name, Overall(overall, state), w', s)
  }

  /** The end of a pass all of whose steps returned. */
  function Conclude(k: Controller, name: string, overall: State, w: World, s: Schedule): Pass {
    if overall != Ready then Pass(k, w, Finished(true, false))
    else Pass(k, UpdateState(w, k.idx, name, Ready, k.namespace, s), Finished(false, false))
  }

  /** A policy other than the one the controller already manages. */
  predicate Spurious(k: Controller, name: string) {
    k.singleton.Some? && k.singleton.value.subject.name != name
  }

  function Fetch(w: World, name: string): Instance
    requires name in w.policies
  {
    Instance(Subject(name, w.policies[name].uid, w.policies[name].spec), w.policies[name].status)
  }

  /** Arrays of equal length, and all three states registered or none. */
  predicate Registered(cfg: Config, k: Controller) {
    if |k.controlFuncs| == 0 then k.resources == [] && k.stateNames == []
    else Initialised(cfg, k)
  }

  lemma InitKeepsRegistered(cfg: Config, k: Controller, policy: Instance, probe: Probe)
    requires Registered(cfg, k)
    ensures Registered(cfg, Init(cfg, k, policy, probe).controller)
    ensures Init(cfg, k, policy, probe).ok ==>
              var k' := Init(cfg, k, policy, probe).controller; Initialised(cfg, k') && k'.idx == 0 && InRange(k')
  {
  }

  /** A pass for a policy the controller takes up. */
  function Enact(cfg: Config, k: Controller, policy: Instance, probe: Probe, w: World, s: Schedule): Pass
    requires Registered(cfg, k)
  {
    var init := Init(cfg, k, policy, probe);
    InitKeepsRegistered(cfg, k, policy, probe);
    if !init.ok then Pass(init.controller, w, Finished(false, true))
    else
      StepsFrom(ContextOf(cfg, init.controller), init.controller, policy.subject.name,
                policy.status.state == Ready, Ready, w, s)
  }

  function Reconcile(cfg: Config, k: Controller, name: string, probe: Probe, w: World, s: Schedule): Pass
    requires Registered(cfg, k)
  {
    if !s(FetchPolicy).fault.Working? then Pass(k, w, Finished(false, true))
    else if name !in w.policies then Pass(k, w, Finished(false, false))
    else if Spurious(k, name) then Pass(k, w, Finished(false, false))
    else Enact(cfg, k, Fetch(w, name), probe, w, s)
  }
}
