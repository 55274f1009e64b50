/** The operator as it runs: a controller object that persists between passes, working on an API server. */
module Operator {
  import opened Policy
  import opened Objects
  import opened Transforms
  import opened Cluster
  import opened Enforcement
  import opened Machine
  import opened GoObjects
  import opened GoTransforms
  import opened Api
  import opened Runs
  import opened RuntimeDetection

  /** A fetched ClusterPolicy. */
  class ClusterPolicy {
    const subject: Subject
    var status: Status

    function Value(): Instance
      reads this
    {
      Instance(subject, status)
    }

    constructor (name: string, stored: Stored)
      ensures Value() == Instance(Subject(name, stored.uid, stored.spec), stored.status)
    {
      subject, status := Subject(name, stored.uid, stored.spec), stored.status;
    }

    method SetStatus(state: State, namespace: string)
      modifies this
      ensures status == Status(state, namespace)
    {
      status := Status(state, namespace);
    }
  }

  datatype ResourceObjects = ResourceObjects(daemonSets: seq<DaemonSetObject>, runtimeClass: RuntimeClass)

  /** The template objects have the registered values and consist of `parts`. */
  ghost predicate Hold(os: seq<DaemonSetObject>, values: seq<DaemonSet>, parts: set<object>)
    reads parts
  {
    |os| == |values| &&
    forall j :: 0 <= j < |os| ==>
      os[j] in parts && os[j].Parts() <= parts && os[j].Valid() && os[j].Value() == values[j]
  }

  ghost predicate AllHold(rs: seq<ResourceObjects>, registered: seq<Resources>, parts: set<object>)
    reads parts
  {
    |rs| == |registered| &&
    forall i :: 0 <= i < |rs| ==>
      rs[i].runtimeClass == registered[i].runtimeClass && Hold(rs[i].daemonSets, registered[i].daemonSets, parts)
  }

  lemma AllHoldWith(rs: seq<ResourceObjects>, registered: seq<Resources>, parts: set<object>,
                    r: ResourceObjects, value: Resources, made: set<object>)
    requires AllHold(rs, registered, parts)
    requires r.runtimeClass == value.runtimeClass && Hold(r.daemonSets, value.daemonSets, made)
    ensures AllHold(rs + [r], registered + [value], parts + made)
  {
    forall i | 0 <= i < |rs| ensures Hold(rs[i].daemonSets, registered[i].daemonSets, parts + made) {
      assert Hold(rs[i].daemonSets, registered[i].daemonSets, parts);
    }
  }

  /** Compares the stored hash annotation with the hash of the new object; on a difference the new
      object is given its hash. */
  method IsDaemonsetSpecChanged(hash: Hash, current: DaemonSet, obj: DaemonSetObject) returns (changed: bool)
    requires current.annotations.Some? && obj.Valid() && obj.annotations != null
    modifies obj.annotations
    ensures changed == IsSpecChanged(current, hash(old(obj.Value())))
    ensures obj.Value() == if changed then Stamp(hash, old(obj.Value())) else old(obj.Value())
  {
    var h := hash(obj.Value());
    var found := current.annotations.value;
    var keys := found.Keys;
    while keys != {}
      invariant keys <= found.Keys && (HASH_KEY in found ==> HASH_KEY in keys)
      invariant obj.Value() == old(obj.Value())
      decreases |keys|
    {
      var k :| k in keys;
      if k == HASH_KEY {
        changed := found[k] != h;
        if changed {
          obj.annotations.m := obj.annotations.m[HASH_KEY := h];
        }
        return;
      }
      keys := keys - {k};
    }
    obj.annotations.m := obj.annotations.m[HASH_KEY := h];
    changed := true;
  }

  /** The runtime the cluster's nodes use: the loop ends at the first containerd node. */
  method GetRuntime(nodes: seq<string>, default: string) returns (runtime: string)
    ensures runtime == DetectRuntime(nodes, default) == RuntimeOf(nodes, default)
  {
    DetectRuntimeExact(nodes, default);
    runtime := "";
    var i := 0;
    while i < |nodes|
      invariant i <= |nodes|
      invariant DetectFrom(nodes[i..], runtime) == DetectFrom(nodes, "")
    {
      assert nodes[i..][0] == nodes[i] && nodes[i..][1..] == nodes[i + 1..];
      var rt := NodeRuntime(nodes[i]);
      i := i + 1;
      if rt != "" {
        runtime := rt;
        if rt == "containerd" {
          break;
        }
      }
    }
    if runtime == "" {
      runtime := default;
    }
  }

  /** Decodes the manifests of one state and collects the control functions they need. */
  method AddResourceControls(manifests: seq<Manifest>)
    returns (r: ResourceObjects, controls: seq<Control>, ghost made: set<object>)
    ensures controls == Register(manifests).controls
    ensures r.runtimeClass == Register(manifests).resources.runtimeClass
    ensures fresh(made) && Hold(r.daemonSets, Register(manifests).resources.daemonSets, made)
  {
    var daemonSets: seq<DaemonSetObject>, runtimeClass := [], NO_CLASS;
    controls, made := [], {};
    assert manifests[..0] == [];
    for i := 0 to |manifests|
      invariant fresh(made) && Hold(daemonSets, Register(manifests[..i]).resources.daemonSets, made)
      invariant runtimeClass == Register(manifests[..i]).resources.runtimeClass
      invariant controls == Register(manifests[..i]).controls
    {
      assert manifests[..i + 1][..i] == manifests[..i] && manifests[..i + 1][i] == manifests[i];
      match manifests[i] {
        case DaemonSetManifest(ds) =>
          var obj := new DaemonSetObject(ds);
          if |daemonSets| == 0 {
            controls := controls + [DaemonSetControl];
          }
          daemonSets, made := daemonSets + [obj], made + obj.Parts();
        case ClassManifest(rc) =>
          runtimeClass, controls := rc, controls + [ClassControl];
        case OtherManifest =>
      }
    }
    assert manifests[..|manifests|] == manifests;
    r := ResourceObjects(daemonSets, runtimeClass);
  }

  class ClusterPolicyController {
    const cfg: Config
    const api: ApiServer
    const fpgaNodeLabels: Labels
    var singleton: ClusterPolicy?
    var operatorNamespace: string
    var resources: seq<ResourceObjects>
    var controlFuncs: seq<seq<Control>>
    var stateNames: seq<string>
    var idx: nat
    var runtime: string

    /** The values of the templates, and the heap objects they are made of. */
    ghost var registered: seq<Resources>
    ghost var parts: set<object>

    /** The templates have the values they were registered with, and nobody has changed the shared labels. */
    ghost predicate Valid()
      reads this, parts, fpgaNodeLabels
    {
      && cfg.caching
      && this !in parts && api !in parts && fpgaNodeLabels !in parts
      && fpgaNodeLabels.m == FPGA_NODE_LABELS
      && AllHold(resources, registered, parts)
    }

    ghost function View(): Controller
      reads this, singleton
    {
      Controller(if singleton == null then None else Some(singleton.Value()), operatorNamespace,
                 registered, controlFuncs, stateNames, idx, runtime)
    }

    /** The cursor points at a registered state. */
    ghost predicate Stepping()
      reads this
    {
      singleton != null && |registered| == |controlFuncs| == |stateNames| && idx < |controlFuncs|
    }

    ghost function Ctx(): Context
      requires singleton != null
      reads this, singleton
    {
      ContextOf(cfg, View())
    }

    constructor (cfg: Config, api: ApiServer, labels: Labels)
      requires cfg.caching && labels.m == FPGA_NODE_LABELS
      ensures Valid() && View() == NEW_CONTROLLER
      ensures this.cfg == cfg && this.api == api
    {
      this.cfg, this.api, fpgaNodeLabels := cfg, api, labels;
      singleton, operatorNamespace, resources, controlFuncs, stateNames, idx, runtime := null, "", [], [], [], 0, "";
      registered, parts := [], {};
    }

    function IsStateEnabledNow(): bool
      requires singleton != null && idx < |stateNames|
      reads this, singleton
    {
      IsStateEnabled(singleton.subject.spec, stateNames[idx])
    }

    // ----- DaemonSets

    method IsDaemonSetReadyNow(j: nat, key: Key) returns (ready: bool)
      ensures ready == IsDaemonSetReady(Slot(api.daemonSets, key), api.schedule(Readiness(idx, j)))
    {
      var found, unavailable := api.GetDaemonSet(Readiness(idx, j), key);
      ready := found.Found? && unavailable == 0;
    }

    /** Creates the prepared object, updates it if its hash differs, and checks that its pods are available. */
    method ApplyDaemonSet(j: nat, key: Key, obj: DaemonSetObject, ghost c: Context) returns (outcome: Outcome)
      requires Valid() && obj.Valid() && obj.annotations != null && obj.annotations !in parts + {fpgaNodeLabels}
      requires c.hash == cfg.hash && c.caching
      modifies api, obj.annotations
      ensures var a := Apply(c, idx, j, key, old(obj.Value()), Slot(old(api.daemonSets), key), api.schedule);
              outcome == a.outcome && api.View() == Record(old(api.View()), key, a)
      ensures api.schedule == old(api.schedule)
    {
      var found, _ := api.GetDaemonSet(Lookup(idx, j), key);
      match found {
        case Unavailable =>
          outcome := Bad;
        case NotFound =>
          var h := cfg.hash(obj.Value());
          obj.annotations.m := obj.annotations.m[HASH_KEY := h];
          var ack := api.CreateDaemonSet(Save(idx, j), key, obj.Value());
          var ready := IsDaemonSetReadyNow(j, key);
          outcome := if ack.Done? && ready then Good else Bad;
        case Found(current) =>
          if current.annotations.None? {
            return Panicked;
          }
          var changed := IsDaemonsetSpecChanged(cfg.hash, current, obj);
          if changed {
            var ack := api.UpdateDaemonSet(Save(idx, j), key, obj.Value());
            if !ack.Done? {
              return Bad;
            }
          }
          var ready := IsDaemonSetReadyNow(j, key);
          outcome := if ready then Good else Bad;
      }
    }

    /** The policy becomes the controlling owner of the object, unless another already is. */
    method SetControllerReference(obj: DaemonSetObject) returns (ok: bool)
      requires singleton != null
      modifies obj`owner
      ensures var owner := Owned(Ctx(), old(obj.owner));
              ok == owner.Some? && obj.owner == if ok then owner else old(obj.owner)
    {
      var policy := singleton.subject;
      if obj.owner.Some? && obj.owner.value.name != policy.name {
        return false;
      }
      obj.owner := Some(Owner(policy.name, policy.uid));
      ok := true;
    }

    /** Makes the object what the policy asks for, short of its hash. */
    method PrepareObject(obj: DaemonSetObject, ghost t: DaemonSet) returns (r: Progress)
      requires Valid() && singleton != null
      requires obj.Valid() && obj.Parts() !! parts + {this, api, fpgaNodeLabels, singleton}
      requires obj.Value() == t.(namespace := operatorNamespace)
      modifies obj.Parts()
      ensures Carries(r, Prepare(Ctx(), t), obj.Value())
      ensures obj.Valid() && obj.name == t.name && obj.namespace == operatorNamespace
      ensures PartOf(obj.annotations) <= old(obj.Parts()) || fresh(PartOf(obj.annotations))
      ensures r.Transformed? ==> obj.annotations != null
    {
      r := RunPreProcess(obj, singleton.subject.spec, runtime, fpgaNodeLabels);
      if r.Transformed? {
        var ok := SetControllerReference(obj);
        if !ok {
          return Progress.Refused;
        }
        if obj.annotations == null {
          obj.annotations := new Labels(map[]);
        }
      }
    }

    /** Brings an enabled template's object, as it came out of preparation, to the cluster. */
    method EnforceObject(j: nat, key: Key, obj: DaemonSetObject, r: Progress, ghost c: Context, ghost t: DaemonSet)
      returns (outcome: Outcome)
      requires Valid() && c.hash == cfg.hash && c.caching && key == KeyOf(c, t)
      requires obj.Valid() && Carries(r, Prepare(c, t), obj.Value())
      requires r.Transformed? ==> obj.annotations != null && obj.annotations !in parts + {fpgaNodeLabels}
      modifies api, PartOf(obj.annotations)
      ensures var a := Enforce(c, idx, j, t, Slot(old(api.daemonSets), key), api.schedule);
              outcome == a.outcome && api.View() == Record(old(api.View()), key, a)
      ensures api.schedule == old(api.schedule)
    {
      match r {
        case OutOfRange => outcome := Panicked;
        case Refused => outcome := Bad;
        case SpecMissing =>
          var ack := api.DeleteDaemonSet(Remove(idx, j), key);
          outcome := if ack.Broken? then Bad else Unmatched;
        case Transformed =>
          outcome := ApplyDaemonSet(j, key, obj, c);
      }
    }

    /** A copy of a template in the operator's namespace, sharing nothing with it. */
    method CopyTemplate(j: nat) returns (obj: DaemonSetObject)
      requires Valid() && idx < |registered| && j < |registered[idx].daemonSets|
      ensures obj.Valid() && fresh(obj.Parts())
      ensures obj.Value() == registered[idx].daemonSets[j].(namespace := operatorNamespace)
    {
      assert Hold(resources[idx].daemonSets, registered[idx].daemonSets, parts);
      var template := resources[idx].daemonSets[j];
      obj := template.DeepCopy();
      obj.namespace := operatorNamespace;
    }

    /** One template of an enabled state. */
    method EnforceTemplate(j: nat, key: Key, obj: DaemonSetObject, ghost t: DaemonSet) returns (outcome: Outcome)
      requires Valid() && singleton != null && key == Key(operatorNamespace, t.name)
      requires obj.Valid() && obj.Parts() !! parts + {this, api, fpgaNodeLabels, singleton}
      requires obj.Value() == t.(namespace := operatorNamespace)
      modifies api, obj.Parts()
      ensures var a := Enforce(Ctx(), idx, j, t, Slot(old(api.daemonSets), key), api.schedule);
              outcome == a.outcome && api.View() == Record(old(api.View()), key, a)
      ensures api.schedule == old(api.schedule)
    {
      var r := PrepareObject(obj, t);
      outcome := EnforceObject(j, key, obj, r, Ctx(), t);
    }

    /** One template: a copy is made, prepared and brought to the cluster, or its object is removed. */
    method VisitTemplate(j: nat) returns (outcome: Outcome)
      requires Valid() && Stepping() && j < |registered[idx].daemonSets|
      modifies api
      ensures var t := registered[idx].daemonSets[j];
              var a := Visit(Ctx(), IsStateEnabledNow(), idx, j, t, Slot(old(api.daemonSets), KeyOf(Ctx(), t)),
                             api.schedule);
              outcome == a.outcome && api.View() == Record(old(api.View()), KeyOf(Ctx(), t), a)
      ensures api.schedule == old(api.schedule)
    {
      var obj := CopyTemplate(j);
      var key := Key(obj.namespace, obj.name);
      if IsStateEnabledNow() {
        outcome := EnforceTemplate(j, key, obj, registered[idx].daemonSets[j]);
      } else {
        var ack := api.DeleteDaemonSet(Remove(idx, j), key);
        outcome := if ack.Broken? then RetireFailed else Retired;
      }
    }

    /** The DaemonSet control function. */
    method RunDaemonSets() returns (verdict: Verdict)
      requires Valid() && Stepping()
      modifies api
      ensures Outgoing(api.View(), verdict) ==
              DaemonSetsFrom(Ctx(), IsStateEnabledNow(), idx, registered[idx].daemonSets, 0, Ready, old(api.View()),
                             api.schedule)
      ensures api.schedule == old(api.schedule)
    {
      ghost var ts := registered[idx].daemonSets;
      var result := Ready;
      assert Hold(resources[idx].daemonSets, ts, parts);
      for j := 0 to |resources[idx].daemonSets|
        invariant api.schedule == old(api.schedule)
        invariant DaemonSetsFrom(Ctx(), IsStateEnabledNow(), idx, ts, j, result, api.View(), api.schedule) ==
                  DaemonSetsFrom(Ctx(), IsStateEnabledNow(), idx, ts, 0, Ready, old(api.View()), api.schedule)
      {
        var outcome := VisitTemplate(j);
        match outcome {
          case Good =>
          case Unmatched =>
            if result == Ready {
              result := Ignored;
            }
          case Bad => result := NotReady;
          case Panicked => return Crashed;
          case Retired => result := Disabled;
          case RetireFailed => result := NotReady;
        }
      }
      verdict := Returned(result);
    }

    // ----- RuntimeClass

    /** The RuntimeClass control function, the `n`-th of its state. */
    method RunClass(n: nat) returns (verdict: Verdict)
      requires Valid() && Stepping()
      modifies api
      ensures Outgoing(api.View(), verdict) ==
              ApplyClass(Ctx(), IsStateEnabledNow(), idx, n, registered[idx].runtimeClass, old(api.View()),
                         api.schedule)
      ensures api.schedule == old(api.schedule)
    {
      var name := RuntimeClassName(singleton.subject.spec);
      var obj := resources[idx].runtimeClass.(name := name, handler := name);
      if !IsStateEnabledNow() {
        var ack := api.DeleteClass(ClassRemove(idx, n), name);
        return Returned(if ack.Broken? then NotReady else Disabled);
      }
      if obj.owner.Some? && obj.owner.value.name != singleton.subject.name {
        return Failed;
      }
      obj := obj.(owner := Some(Owner(singleton.subject.name, singleton.subject.uid)));
      var found := api.GetClass(ClassLookup(idx, n), name);
      var ack: Ack;
      match found {
        case Unavailable => return Failed;
        case NotFound => ack := api.CreateClass(ClassSave(idx, n), obj);
        case Found(_) => ack := api.UpdateClass(ClassSave(idx, n), obj);
      }
      verdict := if ack.Done? then Returned(Ready) else Failed;
    }

    // ----- one step

    method RunControlNow(n: nat) returns (verdict: Verdict)
      requires Valid() && Stepping() && n < |controlFuncs[idx]|
      modifies api
      ensures Outgoing(api.View(), verdict) ==
              RunControl(Ctx(), IsStateEnabledNow(), idx, n, controlFuncs[idx][n], registered[idx], old(api.View()),
                         api.schedule)
      ensures api.schedule == old(api.schedule)
    {
      match controlFuncs[idx][n] {
        case DaemonSetControl => verdict := RunDaemonSets();
        case ClassControl => verdict := RunClass(n);
      }
    }

    method RunStep() returns (verdict: Verdict)
      requires Valid() && Stepping()
      modifies this`idx, api
      ensures Valid() && api.schedule == old(api.schedule)
      ensures Outgoing(api.View(), verdict) == Step(old(Ctx()), old(View()), old(api.View()), api.schedule)
      ensures View() == if verdict.Returned? then old(View()).(idx := old(idx) + 1) else old(View())
    {
      var result := Ready;
      ghost var c, enabled, r := Ctx(), IsStateEnabledNow(), registered[idx];
      for n := 0 to |controlFuncs[idx]|
        invariant Valid() && Stepping() && idx == old(idx) && api.schedule == old(api.schedule)
        invariant ControlsFrom(c, enabled, idx, n, controlFuncs[idx], r, result, api.View(), api.schedule) ==
                  Step(c, old(View()), old(api.View()), api.schedule)
      {
        var v := RunControlNow(n);
        if !v.Returned? {
          return v;
        }
        if v.state != Ready {
          result := v.state;
        }
      }
      idx := idx + 1;
      verdict := Returned(result);
    }

    function Last(): bool
      reads this
    {
      idx == |controlFuncs|
    }

    // ----- status

    /** Fetches the stored policy again, to write to its latest version, and writes the state if it differs. */
    method UpdateCRState(i: nat, name: string, state: State)
      modifies api
      ensures api.View() == UpdateState(old(api.View()), i, name, state, operatorNamespace, api.schedule)
      ensures api.schedule == old(api.schedule)
    {
      var found := api.GetPolicy(StatusRead(i), name);
      if found.Found? {
        var policy := new ClusterPolicy(name, found.value);
        if policy.status.state != state {
          policy.SetStatus(state, operatorNamespace);
          api.PutPolicyStatus(StatusWrite(i), name, policy.status);
        }
      }
    }

    // ----- initialisation

    method AddState(manifests: seq<Manifest>, name: string)
      requires Valid()
      modifies this`resources, this`controlFuncs, this`stateNames, this`registered, this`parts
      ensures Valid() && fresh(parts - old(parts))
      ensures registered == old(registered) + [Register(manifests).resources]
      ensures controlFuncs == old(controlFuncs) + [Register(manifests).controls]
      ensures stateNames == old(stateNames) + [name]
    {
      ghost var before := parts;
      var r, controls, made := AddResourceControls(manifests);
      AllHoldWith(resources, registered, before, r, Register(manifests).resources, made);
      resources := resources + [r];
      controlFuncs := controlFuncs + [controls];
      stateNames := stateNames + [name];
      registered := registered + [Register(manifests).resources];
      parts := parts + made;
    }

    method AddStates()
      requires Valid()
      modifies this`resources, this`controlFuncs, this`stateNames, this`registered, this`parts
      ensures Valid() && fresh(parts - old(parts))
      ensures var rs := Registrations(cfg);
        && registered == old(registered) + seq(3, i requires 0 <= i < 3 => rs[i].resources)
        && controlFuncs == old(controlFuncs) + seq(3, i requires 0 <= i < 3 => rs[i].controls)
        && stateNames == old(stateNames) + STATE_NAMES
    {
      ThreeStates(cfg);
      AddState(cfg.runtimeManifests, STATE_NAMES[0]);
      AddState(cfg.pluginManifests, STATE_NAMES[1]);
      AddState(cfg.setupManifests, STATE_NAMES[2]);
      assert STATE_NAMES == [STATE_NAMES[0]] + [STATE_NAMES[1]] + [STATE_NAMES[2]];
    }

    /** What is done the first time: find the namespace, the server version and the runtime, and register the states. */
    method RunFirstInit(default: string, probe: Probe) returns (ok: bool)
      requires Valid()
      modifies this`operatorNamespace, this`runtime
      modifies this`resources, this`controlFuncs, this`stateNames, this`registered, this`parts
      ensures Valid() && fresh(parts - old(parts)) && operatorNamespace == Namespace(cfg)
      ensures ok == (probe.version.Valid? && probe.runtimes.Some?)
      ensures !ok ==> runtime == old(runtime) && registered == old(registered) && controlFuncs == old(controlFuncs) &&
                      stateNames == old(stateNames)
      ensures ok ==> var rs := Registrations(cfg);
        && runtime == DetectRuntime(probe.runtimes.value, default)
        && registered == old(registered) + seq(3, i requires 0 <= i < 3 => rs[i].resources)
        && controlFuncs == old(controlFuncs) + seq(3, i requires 0 <= i < 3 => rs[i].controls)
        && stateNames == old(stateNames) + STATE_NAMES
    {
      operatorNamespace := cfg.namespaceVariable;
      if operatorNamespace == "" {
        operatorNamespace := "default";
      }
      if !probe.version.Valid? || probe.runtimes.None? {
        return false;
      }
      runtime := GetRuntime(probe.runtimes.value, default);
      AddStates();
      ok := true;
    }

    /** Takes up the policy; the first time it gets that far, it also detects the runtime and registers the states. */
    method RunInit(policy: ClusterPolicy, probe: Probe) returns (ok: bool)
      requires Valid()
      modifies this
      ensures Valid() && fresh(parts - old(parts))
      ensures InitResult(View(), ok) == Init(cfg, old(View()), policy.Value(), probe)
    {
      singleton := policy;
      idx := 0;
      if |controlFuncs| == 0 {
        ok := RunFirstInit(policy.subject.spec.defaultRuntime, probe);
        if !ok {
          return;
        }
      }
      if !probe.labelsListed {
        return false;
      }
      ok := probe.osListed;
    }

    // ----- one pass

    method RunReconcile(name: string, probe: Probe) returns (ending: Ending)
      requires Valid() && Registered(cfg, View())
      modifies this, api
      ensures Valid() && Registered(cfg, View()) && api.schedule == old(api.schedule)
      ensures Pass(View(), api.View(), ending) ==
              Reconcile(cfg, old(View()), name, probe, old(api.View()), api.schedule)
    {
      ReconcileKeepsRegistered(cfg, View(), name, probe, api.View(), api.schedule);
      var found := api.GetPolicy(FetchPolicy, name);
      match found {
        case Unavailable => return Finished(false, true);
        case NotFound => return Finished(false, false);
        case Found(stored) =>
          var policy := new ClusterPolicy(name, stored);
          if singleton != null && singleton.subject.name != name {
            // Ignored is recorded on the fetched copy only.
            policy.SetStatus(Ignored, operatorNamespace);
            return Finished(false, false);
          }
          ending := RunEnact(policy, probe);
      }
    }

    method RunEnact(policy: ClusterPolicy, probe: Probe) returns (ending: Ending)
      requires Valid() && Registered(cfg, View())
      modifies this, api
      ensures Valid() && api.schedule == old(api.schedule)
      ensures Pass(View(), api.View(), ending) ==
              Enact(cfg, old(View()), old(policy.Value()), probe, old(api.View()), api.schedule)
    {
      InitKeepsRegistered(cfg, View(), policy.Value(), probe);
      var ok := RunInit(policy, probe);
      if !ok {
        return Finished(false, true);
      }
      ending := RunSteps(policy.subject.name, policy.status.state == Ready);
    }

    /** One turn of the step loop: the step, and the demotion of the policy that may follow it. */
    method RunTurn(name: string, wasReady: bool) returns (verdict: Verdict)
      requires Valid() && Stepping()
      modifies this`idx, api
      ensures Valid() && api.schedule == old(api.schedule)
      ensures verdict == Step(old(Ctx()), old(View()), old(api.View()), api.schedule).verdict
      ensures api.View() == AfterStep(old(Ctx()), old(View()), name, wasReady, old(api.View()), api.schedule)
      ensures View() == if verdict.Returned? then old(View()).(idx := old(idx) + 1) else old(View())
      ensures verdict.Returned? ==> 0 <= idx - 1 < |stateNames|
    {
      verdict := RunStep();
      ReportStep(if verdict.Returned? then idx - 1 else idx, name, wasReady, verdict);
    }

    /** Demotes the policy after a step: after an error always, after NotReady if it was Ready when it was fetched. */
    method ReportStep(i: nat, name: string, wasReady: bool, verdict: Verdict)
      modifies api
      ensures api.schedule == old(api.schedule)
      ensures api.View() ==
              if verdict.Failed? || (wasReady && verdict == Returned(NotReady))
              then UpdateState(old(api.View()), i, name, NotReady, operatorNamespace, api.schedule) else old(api.View())
    {
      if verdict.Failed? {
        UpdateCRState(i, name, NotReady);
      } else if verdict == Returned(NotReady) && wasReady {
        UpdateCRState(i, name, NotReady);
      }
    }

    /** What is left to do of the pass, from the cursor on, comes to `goal`. */
    ghost predicate Ahead(name: string, wasReady: bool, overall: State, goal: Pass)
      requires singleton != null
      reads this, singleton, api
    {
      if Stepping() then StepsFrom(Ctx(), View(), name, wasReady, overall, api.View(), api.schedule) == goal
      else Conclude(View(), name, overall, api.View(), api.schedule) == goal
    }

    /** A turn, and whether it ends the pass; the overall state becomes NotReady with that of the step. */
    method RunBody(name: string, wasReady: bool, overall: State, ghost goal: Pass)
      returns (ending: Option<Ending>, overall': State)
      requires Valid() && Stepping() && Ahead(name, wasReady, overall, goal)
      modifies this`idx, api
      ensures Valid() && api.schedule == old(api.schedule)
      ensures View() == old(View()).(idx := idx) && (idx == old(idx) || idx == old(idx) + 1)
      ensures match ending
              case Some(e) => Pass(View(), api.View(), e) == goal
              case None => idx == old(idx) + 1 && Ahead(name, wasReady, overall', goal)
    {
      ghost var c, k, w, s := Ctx(), View(), api.View(), api.schedule;
      var verdict := RunTurn(name, wasReady);
      OneTurn(c, k, name, wasReady, overall, w, s, goal);
      match verdict {
        case Crashed => return Some(Panic), overall;
        case Failed => return Some(Finished(true, true)), overall;
        case Returned(state) => return None, if state == NotReady then NotReady else overall;
      }
    }

    /** The step loop, from the first state to the last. */
    method RunSteps(name: string, wasReady: bool) returns (ending: Ending)
      requires Valid() && Stepping() && idx == 0
      modifies this`idx, api
      ensures Valid() && api.schedule == old(api.schedule)
      ensures Pass(View(), api.View(), ending) ==
              StepsFrom(old(Ctx()), old(View()), name, wasReady, Ready, old(api.View()), api.schedule)
    {
      var overall := Ready;
      ghost var start, goal := View(), StepsFrom(Ctx(), View(), name, wasReady, Ready, api.View(), api.schedule);
      while true
        invariant Valid() && Stepping() && api.schedule == old(api.schedule)
        invariant View() == start.(idx := idx)
        invariant Ahead(name, wasReady, overall, goal)
        decreases |controlFuncs| - idx
      {
        var ended: Option<Ending>;
        ended, overall := RunBody(name, wasReady, overall, goal);
        if ended.Some? {
          return ended.value;
        }
        if Last() {
          break;
        }
      }
      ending := Close(name, overall);
    }

    /** What follows the steps once all have returned. */
    method Close(name: string, overall: State) returns (ending: Ending)
      requires Valid()
      modifies api
      ensures Valid() && api.schedule == old(api.schedule)
      ensures Pass(View(), api.View(), ending) == Conclude(View(), name, overall, old(api.View()), api.schedule)
    {
      if overall != Ready {
        return Finished(true, false);
      }
      UpdateCRState(idx, name, Ready);
      ending := Finished(false, false);
    }
  }

  /** A turn of the loop is one unfolding of the specification. */
  lemma OneTurn(c: Context, k: Controller, name: string, wasReady: bool, overall: State, w: World, s: Schedule,
                goal: Pass)
    requires InRange(k) && StepsFrom(c, k, name, wasReady, overall, w, s) == goal
    ensures var v, k', w' := Step(c, k, w, s).verdict, k.(idx := k.idx + 1), AfterStep(c, k, name, wasReady, w, s);
            match v
            case Crashed => goal == Pass(k, w', Panic)
            case Failed => goal == Pass(k, w', Finished(true, true))
            case Returned(state) =>
              goal ==
              if k'.idx != |k'.controlFuncs| then StepsFrom(c, k', name, wasReady, Overall(overall, state), w', s)
                      else Conclude(k', name, Overall(overall, state), w', s)
  {
  }

  lemma ThreeStates(cfg: Config)
    ensures var rs := Registrations(cfg);
      && seq(3, i requires 0 <= i < 3 => rs[i].resources) ==
           [Register(cfg.runtimeManifests).resources] + [Register(cfg.pluginManifests).resources] +
           [Register(cfg.setupManifests).resources]
      && seq(3, i requires 0 <= i < 3 => rs[i].controls) ==
           [Register(cfg.runtimeManifests).controls] + [Register(cfg.pluginManifests).controls] +
           [Register(cfg.setupManifests).controls]
  {
  }
}
