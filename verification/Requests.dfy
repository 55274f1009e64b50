/** What a reconcile request answers and leaves, by what it meets: the stored policy, the manifests, and the answers of
    the cluster. */
module Requests {
  import opened Policy
  import opened Objects
  import opened Transforms
  import opened Cluster
  import opened Enforcement
  import opened Machine
  import opened Passes
  import opened Readiness
  import opened Convergence
  import opened Classes
  import opened Registering
  import opened Runs
  import opened RuntimeDetection

  // ----- what a request meets

  /** The operator has not taken up a policy of another name. */
  predicate TakesUp(k: Controller, name: string) {
    k.singleton.Some? ==> k.singleton.value.subject.name == name
  }

  /** The cluster cannot be read as initialisation needs: its version and nodes, as long as no states are registered,
      and its labels and operating systems each time. */
  predicate Unreadable(k: Controller, probe: Probe) {
    || (k.controlFuncs == [] && (probe.version != Valid || probe.runtimes == None))
    || !probe.labelsListed || !probe.osListed
  }

  /** The runtime a request works with: the one found when the states were registered, or what the nodes say now. */
  ghost function RuntimeFor(k: Controller, probe: Probe, spec: Spec): string
    requires !Unreadable(k, probe)
  {
    if k.controlFuncs != [] then k.runtime else RuntimeOf(probe.runtimes.value, spec.defaultRuntime)
  }

  /** The stored policy of that name. */
  function SubjectOf(w: World, name: string): Subject
    requires name in w.policies
  {
    Subject(name, w.policies[name].uid, w.policies[name].spec)
  }

  ghost predicate Starts(k: Controller, name: string, probe: Probe, w: World, s: Schedule) {
    s(FetchPolicy).fault == Working && name in w.policies && TakesUp(k, name) && !Unreadable(k, probe)
  }

  /** A request gets to the step loop exactly if it starts, and then with that runtime. */
  lemma StartsIffProceeds(cfg: Config, k: Controller, name: string, probe: Probe, w: World, s: Schedule)
    requires Registered(cfg, k)
    ensures Proceeds(cfg, k, name, probe, w, s) <==> Starts(k, name, probe, w, s)
    ensures Starts(k, name, probe, w, s) ==>
              && Started(cfg, k, name, probe, w).runtime == RuntimeFor(k, probe, w.policies[name].spec)
              && Fetch(w, name).subject == SubjectOf(w, name)
  {
    if k.controlFuncs == [] && probe.runtimes.Some? && name in w.policies {
      DetectRuntimeExact(probe.runtimes.value, w.policies[name].spec.defaultRuntime);
    }
  }

  // ----- how a request ends

  /** The flag of the spec that rules a state: the states are the container runtime, the device plugin and the host
      setup, in this order. */
  function Flag(spec: Spec, i: nat): Option<bool>
    requires i < 3
  {
    [spec.containerRuntime.enabled, spec.devicePlugin.enabled, spec.hostSetup.enabled][i]
  }

  lemma FlagRules(cfg: Config, policy: Subject, runtime: string, i: nat)
    requires i < 3
    ensures EnabledAt(PlanFor(cfg, policy, runtime), i) <==> Flag(policy.spec, i) != Some(false)
  {
    assert "state-container-runtime"[6] == 'c' && "state-device-plugin"[6] == 'd' && "state-host-setup"[6] == 'h';
  }

  /** For every request, with any failures: how it ends. */
  lemma RequestEnds(cfg: Config, k: Controller, name: string, probe: Probe, w: World, s: Schedule)
    requires Registered(cfg, k) && SoundManifests(cfg)
    ensures var r := Reconcile(cfg, k, name, probe, w, s);
      // the policy cannot be fetched: an error, and nothing is done
      && (s(FetchPolicy).fault != Working ==> r == Pass(k, w, Finished(false, true)))
      // there is no such policy, or another one was taken up: nothing is done and nothing is asked for
      && (s(FetchPolicy).fault == Working && (name !in w.policies || !TakesUp(k, name)) ==>
            r == Pass(k, w, Finished(false, false)))
      // the cluster cannot be read: an error, and the cluster is left as it is
      && (s(FetchPolicy).fault == Working && name in w.policies && TakesUp(k, name) && Unreadable(k, probe) ==>
            r.w == w && r.ending == Finished(false, true) && r.controller.singleton == Some(Fetch(w, name)))
      // otherwise it succeeds exactly if every state is fine, and else asks to be run again or panics
      && (Starts(k, name, probe, w, s) ==>
            var p := PlanFor(cfg, SubjectOf(w, name), RuntimeFor(k, probe, w.policies[name].spec));
            && WellPlanned(p)
            && (r.ending == Finished(false, false) <==> forall i :: 0 <= i < 3 ==> StateFine(p, i, w, s))
            && (r.ending == Finished(false, false) || r.ending.Panic? || r.ending.requeue))
  {
    StartsIffProceeds(cfg, k, name, probe, w, s);
    if Starts(k, name, probe, w, s) {
      StartedEnds(cfg, k, name, probe, w, s);
    }
  }

  lemma StartedEnds(cfg: Config, k: Controller, name: string, probe: Probe, w: World, s: Schedule)
    requires Registered(cfg, k) && SoundManifests(cfg) && Starts(k, name, probe, w, s)
    ensures var r := Reconcile(cfg, k, name, probe, w, s);
            var p := PlanFor(cfg, SubjectOf(w, name), RuntimeFor(k, probe, w.policies[name].spec));
      && WellPlanned(p)
      && (r.ending == Finished(false, false) <==> forall i :: 0 <= i < 3 ==> StateFine(p, i, w, s))
      && (r.ending == Finished(false, false) || r.ending.Panic? || r.ending.requeue)
  {
    StartsIffProceeds(cfg, k, name, probe, w, s);
    var k' := Started(cfg, k, name, probe, w);
    ReconcileIsPass(cfg, k, name, probe, w, s);
    PlanForWell(cfg, SubjectOf(w, name), k'.runtime);
    ReadyIff(ContextOf(cfg, k'), k', name, w.policies[name].status.state == Ready, w, s);
  }

  /** A request succeeds exactly if the policy can be fetched and is absent, or not the one taken up, or the cluster can
      be read and every state is fine. An error is reported for every request that cannot start. */
  lemma SucceedsIff(cfg: Config, k: Controller, name: string, probe: Probe, w: World, s: Schedule)
    requires Registered(cfg, k) && SoundManifests(cfg)
    ensures Reconcile(cfg, k, name, probe, w, s).ending == Finished(false, false) <==>
              && s(FetchPolicy).fault == Working
              && (|| name !in w.policies
                  || !TakesUp(k, name)
                  || (!Unreadable(k, probe) &&
                      var p := PlanFor(cfg, SubjectOf(w, name), RuntimeFor(k, probe, w.policies[name].spec));
                      WellPlanned(p) && forall i :: 0 <= i < 3 ==> StateFine(p, i, w, s)))
  {
    RequestEnds(cfg, k, name, probe, w, s);
  }

  // ----- which flag rules which manifests, and what is stored

  function ManifestsOf(cfg: Config, i: nat): seq<Manifest>
    requires i < 3
  {
    [cfg.runtimeManifests, cfg.pluginManifests, cfg.setupManifests][i]
  }

  lemma {:induction false} ManifestIsTemplate(manifests: seq<Manifest>, d: DaemonSet)
    requires DaemonSetManifest(d) in manifests
    ensures d in DaemonSetsIn(manifests)
  {
    if manifests[0] != DaemonSetManifest(d) {
      assert DaemonSetManifest(d) in manifests[1..];
      ManifestIsTemplate(manifests[1..], d);
    }
  }

  /** A manifest of a state's directory is one of the templates of that state. */
  lemma ManifestInPlan(cfg: Config, policy: Subject, runtime: string, i: nat, d: DaemonSet) returns (j: nat)
    requires i < 3 && DaemonSetManifest(d) in ManifestsOf(cfg, i)
    ensures var p := PlanFor(cfg, policy, runtime); InPlan(p, i, j) && TemplateAt(p, i, j) == d
  {
    RegisterExact(ManifestsOf(cfg, i));
    ManifestIsTemplate(ManifestsOf(cfg, i), d);
    assert ResourcesOf(cfg)[i] == Register(ManifestsOf(cfg, i)).resources;
    j :| 0 <= j < |ResourcesOf(cfg)[i].daemonSets| && ResourcesOf(cfg)[i].daemonSets[j] == d;
  }

  function NamespaceOf(cfg: Config): string {
    if cfg.namespaceVariable == "" then "default" else cfg.namespaceVariable
  }

  /** The stored object is the one made from the template, owned by the policy, and annotated with the hash of all
      that. */
  predicate StoredAs(cfg: Config, policy: Subject, made: DaemonSet, stored: DaemonSet) {
    var before := made.(owner := Some(Owner(policy.name, policy.uid)),
                        annotations := Some(if made.annotations.Some? then made.annotations.value else map[]));
    stored == before.(annotations := Some(before.annotations.value["xilinx.com/last-applied-hash" := cfg.hash(before)]))
  }

  lemma ManifestOnTarget(cfg: Config, k: Controller, name: string, probe: Probe, w: World, s: Schedule, i: nat,
                         d: DaemonSet)
    returns (j: nat)
    requires Registered(cfg, k) && SoundManifests(cfg) && TrueHashes(cfg, w)
    requires FailureFree(s) && Starts(k, name, probe, w, s)
    requires CollisionFree(cfg, SubjectOf(w, name), RuntimeFor(k, probe, w.policies[name].spec), w)
    requires i < 3 && DaemonSetManifest(d) in ManifestsOf(cfg, i)
    ensures var p := PlanFor(cfg, SubjectOf(w, name), RuntimeFor(k, probe, w.policies[name].spec));
      && InPlan(p, i, j) && TemplateAt(p, i, j) == d
      && Slot(Reconcile(cfg, k, name, probe, w, s).w.daemonSets, Key(NamespaceOf(cfg), d.name)) == Target(p, i, j)
  {
    var policy, runtime := SubjectOf(w, name), RuntimeFor(k, probe, w.policies[name].spec);
    StartsIffProceeds(cfg, k, name, probe, w, s);
    j := ManifestInPlan(cfg, policy, runtime, i, d);
    var p := PlanFor(cfg, policy, runtime);
    RecoversFromAnyRun(cfg, System(k, w, false), [], name, probe, s);
    var k' := Started(cfg, k, name, probe, w);
    ReconcileIsPass(cfg, k, name, probe, w, s);
    StepsKeepController(ContextOf(cfg, k'), k', name, w.policies[name].status.state == Ready, Ready, w, s);
    assert KeyAt(p, i, j) == Key(NamespaceOf(cfg), d.name);
  }

  /** After a request that starts and meets no failure, over true hashes, each DaemonSet manifest of a state's directory
      is as the flag of that state says: absent if it is false, else stored as its transformation makes it, or absent
      if the policy has no specification for it. */
  lemma FlagsRuleManifests(cfg: Config, k: Controller, name: string, probe: Probe, w: World, s: Schedule, i: nat,
                           d: DaemonSet)
    requires Registered(cfg, k) && SoundManifests(cfg) && TrueHashes(cfg, w)
    requires FailureFree(s) && Starts(k, name, probe, w, s)
    requires CollisionFree(cfg, SubjectOf(w, name), RuntimeFor(k, probe, w.policies[name].spec), w)
    requires i < 3 && DaemonSetManifest(d) in ManifestsOf(cfg, i)
    ensures var r, policy, ns := Reconcile(cfg, k, name, probe, w, s), SubjectOf(w, name), NamespaceOf(cfg);
            var stored := Slot(r.w.daemonSets, Key(ns, d.name));
            if Flag(policy.spec, i) == Some(false) then stored == None
            else
              match PreProcess(d.(namespace := ns), policy.spec, RuntimeFor(k, probe, policy.spec))
              case Built(made) => stored.Some? && StoredAs(cfg, policy, made, stored.value)
              case NoSpec => stored == None
              case _ => false
  {
    var policy, runtime := SubjectOf(w, name), RuntimeFor(k, probe, w.policies[name].spec);
    var j := ManifestOnTarget(cfg, k, name, probe, w, s, i, d);
    FlagRules(cfg, policy, runtime, i);
    if Flag(policy.spec, i) != Some(false) {
      PlanForServable(cfg, policy, runtime);
      TargetStoredAs(cfg, policy, runtime, i, j);
    }
  }

  lemma TargetStoredAs(cfg: Config, policy: Subject, runtime: string, i: nat, j: nat)
    requires InPlan(PlanFor(cfg, policy, runtime), i, j) && EnabledAt(PlanFor(cfg, policy, runtime), i)
    requires Servable(PlanFor(cfg, policy, runtime))
    ensures var p := PlanFor(cfg, policy, runtime);
            match PreProcess(TemplateAt(p, i, j).(namespace := NamespaceOf(cfg)), policy.spec, runtime)
            case Built(made) => Target(p, i, j).Some? && StoredAs(cfg, policy, made, Target(p, i, j).value)
            case NoSpec => Target(p, i, j) == None
            case _ => false
  {
    var p := PlanFor(cfg, policy, runtime);
    var prepared := Prepare(p.c, TemplateAt(p, i, j));
    assert prepared.Built? || prepared.NoSpec?;
  }

  // ----- the RuntimeClass

  /** The last RuntimeClass manifest of the container runtime's directory. */
  ghost predicate LastClass(cfg: Config, t: RuntimeClass) {
    exists m :: 0 <= m < |cfg.runtimeManifests| && cfg.runtimeManifests[m] == ClassManifest(t) &&
      forall a :: m < a < |cfg.runtimeManifests| ==> !cfg.runtimeManifests[a].ClassManifest?
  }

  function ClassNameOf(spec: Spec): string {
    if spec.containerRuntime.runtimeClass == "" then "xilinx" else spec.containerRuntime.runtimeClass
  }

  /** The class under the policy's name for it: name and handler are that name, the policy owns it, and the rest is
      the manifest's. */
  predicate ClassAsAsked(policy: Subject, t: RuntimeClass, stored: Option<RuntimeClass>) {
    && stored.Some?
    && stored.value.name == ClassNameOf(policy.spec) && stored.value.handler == ClassNameOf(policy.spec)
    && stored.value.owner == Some(Owner(policy.name, policy.uid)) && stored.value.rest == t.rest
  }

  lemma ClassPlanned(cfg: Config, policy: Subject, runtime: string, t: RuntimeClass)
    requires ClassInOneState(cfg) && LastClass(cfg, t)
    ensures var p := PlanFor(cfg, policy, runtime);
      && ClassControl in p.controls[0] && p.resources[0].runtimeClass == t
      && ClassesWant(p, 0, WantedClass(p.c, EnabledAt(p, 0), t))
  {
    var p := PlanFor(cfg, policy, runtime);
    RegisterExact(cfg.runtimeManifests);
    var m :| 0 <= m < |cfg.runtimeManifests| && cfg.runtimeManifests[m] == ClassManifest(t) &&
      forall a :: m < a < |cfg.runtimeManifests| ==> !cfg.runtimeManifests[a].ClassManifest?;
    assert cfg.runtimeManifests[m] in cfg.runtimeManifests;
    assert Registrations(cfg)[0] == Register(cfg.runtimeManifests);
    assert ClassControl in ControlsOf(cfg)[0];
  }

  /** After a request that starts, with any failures but of its RuntimeClass requests: if it runs to its end, the class
      is as asked while the container runtime is enabled, and absent while it is not. */
  lemma ClassStored(cfg: Config, k: Controller, name: string, probe: Probe, w: World, s: Schedule, t: RuntimeClass)
    requires Registered(cfg, k) && SoundManifests(cfg) && ClassInOneState(cfg) && LastClass(cfg, t)
    requires Starts(k, name, probe, w, s)
    requires forall i, n :: s(ClassLookup(i, n)).fault == Working && s(ClassSave(i, n)).fault == Working &&
                            s(ClassRemove(i, n)).fault == Working
    ensures var r, policy := Reconcile(cfg, k, name, probe, w, s), SubjectOf(w, name);
            var stored := Slot(r.w.classes, ClassNameOf(policy.spec));
            Completed(r.ending) ==>
              if policy.spec.containerRuntime.enabled == Some(false) then stored == None
              else ClassAsAsked(policy, t, stored)
  {
    var policy, runtime := SubjectOf(w, name), RuntimeFor(k, probe, w.policies[name].spec);
    var p := PlanFor(cfg, policy, runtime);
    StartsIffProceeds(cfg, k, name, probe, w, s);
    ReconcileIsPass(cfg, k, name, probe, w, s);
    ClassPlanned(cfg, policy, runtime, t);
    FlagRules(cfg, policy, runtime, 0);
    var k' := Started(cfg, k, name, probe, w);
    var want := WantedClass(p.c, EnabledAt(p, 0), t);
    PassClass(ContextOf(cfg, k'), k', name, w.policies[name].status.state == Ready, Ready, w, s, want);
    assert AllClassesWork(p, 0, s) by {
      forall i | 0 <= i < |p.resources|
        ensures ClassesWork(p.c, EnabledAt(p, i), i, 0, p.controls[i], p.resources[i].runtimeClass, s)
      {
        assert ResourcesOf(cfg)[i].runtimeClass.owner.None?;
      }
    }
    assert HasClass(p, 0);
  }

  /** And whatever fails, a request that succeeds leaves the class as asked while the container runtime is enabled. */
  lemma ClassStoredWhenReady(cfg: Config, k: Controller, name: string, probe: Probe, w: World, s: Schedule,
                             t: RuntimeClass)
    requires Registered(cfg, k) && SoundManifests(cfg) && ClassInOneState(cfg) && LastClass(cfg, t)
    requires Starts(k, name, probe, w, s) && w.policies[name].spec.containerRuntime.enabled != Some(false)
    requires Reconcile(cfg, k, name, probe, w, s).ending == Finished(false, false)
    ensures var r, policy := Reconcile(cfg, k, name, probe, w, s), SubjectOf(w, name);
            ClassAsAsked(policy, t, Slot(r.w.classes, ClassNameOf(policy.spec)))
  {
    var policy, runtime := SubjectOf(w, name), RuntimeFor(k, probe, w.policies[name].spec);
    var p := PlanFor(cfg, policy, runtime);
    StartsIffProceeds(cfg, k, name, probe, w, s);
    ReconcileIsPass(cfg, k, name, probe, w, s);
    ClassPlanned(cfg, policy, runtime, t);
    FlagRules(cfg, policy, runtime, 0);
    PlanForWell(cfg, policy, runtime);
    var k' := Started(cfg, k, name, probe, w);
    var c, wasReady := ContextOf(cfg, k'), w.policies[name].status.state == Ready;
    ReadyMeansReadBack(c, k', name, wasReady, w, s);
    PassClass(c, k', name, wasReady, Ready, w, s, WantedClass(p.c, EnabledAt(p, 0), t));
    assert AllClassesWork(p, 0, s) by {
      forall i | 0 <= i < |p.resources|
        ensures ClassesWork(p.c, EnabledAt(p, i), i, 0, p.controls[i], p.resources[i].runtimeClass, s)
      {
        assert ResourcesOf(cfg)[i].runtimeClass.owner.None?;
        OnlyRuntimeHasClass(cfg, i);
      }
    }
    assert HasClass(p, 0);
  }

  lemma OnlyRuntimeHasClass(cfg: Config, i: nat)
    requires ClassInOneState(cfg) && i < 3 && ClassControl in ControlsOf(cfg)[0]
    ensures i != 0 ==> ClassControl !in ControlsOf(cfg)[i]
  {
  }
}
