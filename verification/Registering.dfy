/** What the manifests register, and which manifests the operator can serve. */
module Registering {
  import opened Policy
  import opened Objects
  import opened Transforms
  import opened Enforcement
  import opened Machine
  import opened Pointwise
  import opened Passes
  import opened Convergence

  /** The DaemonSets among the manifests, in file order. */
  function DaemonSetsIn(manifests: seq<Manifest>): seq<DaemonSet> {
    if manifests == [] then []
    else (if manifests[0].DaemonSetManifest? then [manifests[0].ds] else []) + DaemonSetsIn(manifests[1..])
  }

  lemma {:induction false} DaemonSetsInLast(manifests: seq<Manifest>, m: Manifest)
    ensures DaemonSetsIn(manifests + [m]) == DaemonSetsIn(manifests) + if m.DaemonSetManifest? then [m.ds] else []
  {
    if manifests != [] {
      assert (manifests + [m])[1..] == manifests[1..] + [m];
      DaemonSetsInLast(manifests[1..], m);
    } else {
      assert ([] + [m])[1..] == [];
    }
  }

  /** The controls of a state, in file order: one at the first DaemonSet manifest, one at each RuntimeClass
      manifest. `seen` tells that a DaemonSet came before. */
  function ControlsIn(manifests: seq<Manifest>, seen: bool): seq<Control> {
    if manifests == [] then []
    else
      match manifests[0]
      case DaemonSetManifest(_) => (if seen then [] else [DaemonSetControl]) + ControlsIn(manifests[1..], true)
      case ClassManifest(_) => [ClassControl] + ControlsIn(manifests[1..], seen)
      case OtherManifest => ControlsIn(manifests[1..], seen)
  }

  lemma {:induction false} ControlsInLast(manifests: seq<Manifest>, m: Manifest, seen: bool)
    ensures ControlsIn(manifests + [m], seen) ==
            ControlsIn(manifests, seen) + ControlsIn([m], seen || DaemonSetsIn(manifests) != [])
  {
    if manifests != [] {
      assert (manifests + [m])[1..] == manifests[1..] + [m];
      ControlsInLast(manifests[1..], m, seen || manifests[0].DaemonSetManifest?);
    } else {
      assert [] + [m] == [m];
    }
  }

  lemma {:induction false} ClassControlsIn(manifests: seq<Manifest>, seen: bool)
    ensures ClassControl in ControlsIn(manifests, seen) <==> exists m :: m in manifests && m.ClassManifest?
  {
    if manifests != [] {
      assert forall m :: m in manifests <==> m == manifests[0] || m in manifests[1..];
      ClassControlsIn(manifests[1..], seen || manifests[0].DaemonSetManifest?);
    }
  }

  /** The class of the last RuntimeClass manifest, if there is one. */
  ghost predicate KeepsLastClass(manifests: seq<Manifest>, rc: RuntimeClass) {
    || ((forall m :: m in manifests ==> !m.ClassManifest?) && rc == NO_CLASS)
    || (exists i :: 0 <= i < |manifests| && manifests[i] == ClassManifest(rc) &&
          forall a :: i < a < |manifests| ==> !manifests[a].ClassManifest?)
  }

  lemma LastClassLast(manifests: seq<Manifest>, m: Manifest, rc: RuntimeClass)
    requires KeepsLastClass(manifests, rc)
    ensures KeepsLastClass(manifests + [m], if m.ClassManifest? then m.rc else rc)
  {
    var all := manifests + [m];
    assert forall a :: 0 <= a < |manifests| ==> all[a] == manifests[a];
    if m.ClassManifest? {
      assert all[|manifests|] == ClassManifest(m.rc);
    } else if i :| 0 <= i < |manifests| && manifests[i] == ClassManifest(rc) &&
                   forall a :: i < a < |manifests| ==> !manifests[a].ClassManifest? {
      assert all[i] == ClassManifest(rc) && forall a :: i < a < |all| ==> !all[a].ClassManifest?;
    }
  }

  /** A state keeps its DaemonSets in file order and the class of its last RuntimeClass manifest. It gets the
      DaemonSet control once if it has any, and a RuntimeClass control for each RuntimeClass manifest, in file
      order. */
  lemma {:induction false} RegisterExact(manifests: seq<Manifest>)
    ensures var r := Register(manifests);
      && r.resources.daemonSets == DaemonSetsIn(manifests)
      && KeepsLastClass(manifests, r.resources.runtimeClass)
      && r.controls == ControlsIn(manifests, false)
      && Once(r.controls, r.resources)
      && (ClassControl in r.controls <==> exists m :: m in manifests && m.ClassManifest?)
  {
    if manifests != [] {
      var n := |manifests| - 1;
      var init, last := manifests[..n], manifests[n];
      assert manifests == init + [last];
      RegisterExact(init);
      DaemonSetsInLast(init, last);
      ControlsInLast(init, last, false);
      LastClassLast(init, last, Register(init).resources.runtimeClass);
      ClassControlsIn(manifests, false);
    }
  }

  // ----- which manifests can be served

  /** A template that the transformation of its name can work on and nobody else owns. */
  predicate SoundTemplate(t: DaemonSet) {
    && t.owner.None?
    && match TransformOf(t.name)
       case ContainerRuntime => t.containers != []
       case DevicePlugin => t.containers != []
       case HostSetup => t.nodeSelector.Some? && |t.initContainers| >= 2 && t.containers != []
       case NoTransform => true
  }

  function ResourcesOf(cfg: Config): seq<Resources> {
    var rs := Registrations(cfg);
    seq(3, i requires 0 <= i < 3 => rs[i].resources)
  }

  function ControlsOf(cfg: Config): seq<seq<Control>> {
    var rs := Registrations(cfg);
    seq(3, i requires 0 <= i < 3 => rs[i].controls)
  }

  ghost predicate SoundManifests(cfg: Config) {
    && DistinctTemplates(ResourcesOf(cfg))
    && forall i :: 0 <= i < 3 ==>
         && ResourcesOf(cfg)[i].runtimeClass.owner.None?
         && forall j :: 0 <= j < |ResourcesOf(cfg)[i].daemonSets| ==> SoundTemplate(ResourcesOf(cfg)[i].daemonSets[j])
  }

  lemma SoundPrepares(c: Context, runtime: string, t: DaemonSet)
    requires SoundTemplate(t)
    requires c.transform == (d => PreProcess(d, c.policy.spec, runtime))
    ensures var p := Prepare(c, t); p.Built? || p.NoSpec?
  {
  }

  /** What the controller works from once it is initialised: the policy, the detected runtime, and what
      never changes. */
  function PlanFor(cfg: Config, policy: Subject, runtime: string): Plan {
    Plan(ContextFor(cfg, policy, Namespace(cfg), runtime), ResourcesOf(cfg), ControlsOf(cfg), STATE_NAMES)
  }

  lemma InitialisedPlan(cfg: Config, k: Controller)
    requires Initialised(cfg, k)
    ensures PlanOf(ContextOf(cfg, k), k) == PlanFor(cfg, k.singleton.value.subject, k.runtime)
  {
  }

  lemma PlanForServable(cfg: Config, policy: Subject, runtime: string)
    requires SoundManifests(cfg)
    ensures Servable(PlanFor(cfg, policy, runtime))
  {
    var p := PlanFor(cfg, policy, runtime);
    forall i: nat, j: nat | InPlan(p, i, j) && EnabledAt(p, i)
      ensures var prepared := Prepare(p.c, TemplateAt(p, i, j)); prepared.Built? || prepared.NoSpec?
    {
      assert SoundTemplate(ResourcesOf(cfg)[i].daemonSets[j]);
      SoundPrepares(p.c, runtime, TemplateAt(p, i, j));
    }
  }

  lemma PlanForWell(cfg: Config, policy: Subject, runtime: string)
    requires SoundManifests(cfg)
    ensures WellPlanned(PlanFor(cfg, policy, runtime))
  {
    var p := PlanFor(cfg, policy, runtime);
    RegisterExact(cfg.runtimeManifests);
    RegisterExact(cfg.pluginManifests);
    RegisterExact(cfg.setupManifests);
    forall i | 0 <= i < |p.resources| ensures Once(p.controls[i], p.resources[i]) {
      assert Registrations(cfg)[i].controls == p.controls[i];
    }
  }
}
