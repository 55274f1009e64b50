/** The manifests the operator ships with meet the conditions of the theorems. */
module Shipped {
  import opened Policy
  import opened Objects
  import opened Transforms
  import opened Cluster
  import opened Machine
  import opened Passes
  import opened Readiness
  import opened Cleanup
  import opened Registering
  import opened Runs

  function PlainContainer(name: string): Container {
    Container(name, "filed_by_operator", "", [], [], [], [], "")
  }

  function HostSetupTemplate(name: string, osId: string, osMajor: string): DaemonSet {
    DaemonSet(name, "filled_by_operator", None, None, Some(map[OS_ID_LABEL := osId, OS_MAJOR_LABEL := osMajor]),
              [PlainContainer("init-xrt-xrm"), PlainContainer("init-card-flash")], [PlainContainer("host-setup")],
              [], [], "")
  }

  const RUNTIME_TEMPLATE: DaemonSet :=
    DaemonSet("xilinx-container-runtime-daemonset", "filled_by_operator", None, None, None,
              [], [PlainContainer("xilinx-container-runtime")], [], [], "")

  const PLUGIN_TEMPLATE: DaemonSet :=
    DaemonSet("device-plugin-daemonset", "filled_by_operator", None, None, None, [],
              [PlainContainer("device-plugin").(
                 env := [EnvVar("U30NameConvention", "CommonName"), EnvVar("U30AllocUnit", "Card")],
                 mounts := [Mount("device-plugin", "/var/lib/kubelet/device-plugins")])],
              [Volume("device-plugin", "/var/lib/kubelet/device-plugins")], [], "")

  const CLASS_TEMPLATE := RuntimeClass("filled_by_operator", "filled_by_operator", None, "")

  function ShippedConfig(hash: Hash, namespaceVariable: string): Config {
    Config(hash, namespaceVariable,
           [DaemonSetManifest(RUNTIME_TEMPLATE), ClassManifest(CLASS_TEMPLATE)],
           [DaemonSetManifest(PLUGIN_TEMPLATE)],
           [DaemonSetManifest(HostSetupTemplate("host-setup-ubuntu18-daemonset", "ubuntu", "18")),
            DaemonSetManifest(HostSetupTemplate("host-setup-ubuntu20-daemonset", "ubuntu", "20")),
            DaemonSetManifest(HostSetupTemplate("host-setup-ubuntu22-daemonset", "ubuntu", "22")),
            DaemonSetManifest(HostSetupTemplate("host-setup-centos7-daemonset", "centos", "7"))],
           true)
  }

  lemma RegisterStep(ms: seq<Manifest>, m: Manifest)
    ensures Register(ms + [m]) == AddManifest(Register(ms), m)
  {
    assert (ms + [m])[..|ms|] == ms;
  }

  lemma ShippedRegistrations(hash: Hash, namespaceVariable: string)
    ensures var rs := Registrations(ShippedConfig(hash, namespaceVariable));
      && rs[0] == Registration(Resources([RUNTIME_TEMPLATE], CLASS_TEMPLATE), [DaemonSetControl, ClassControl])
      && rs[1] == Registration(Resources([PLUGIN_TEMPLATE], NO_CLASS), [DaemonSetControl])
      && rs[2] == Registration(Resources([HostSetupTemplate("host-setup-ubuntu18-daemonset", "ubuntu", "18"),
                                          HostSetupTemplate("host-setup-ubuntu20-daemonset", "ubuntu", "20"),
                                          HostSetupTemplate("host-setup-ubuntu22-daemonset", "ubuntu", "22"),
                                          HostSetupTemplate("host-setup-centos7-daemonset", "centos", "7")], NO_CLASS),
                               [DaemonSetControl])
  {
    var cfg := ShippedConfig(hash, namespaceVariable);
    var r, p, h := cfg.runtimeManifests, cfg.pluginManifests, cfg.setupManifests;
    RegisterStep([], r[0]);
    RegisterStep([r[0]], r[1]);
    RegisterStep([], p[0]);
    RegisterStep([], h[0]);
    RegisterStep([h[0]], h[1]);
    RegisterStep([h[0], h[1]], h[2]);
    RegisterStep([h[0], h[1], h[2]], h[3]);
    assert r == [] + [r[0]] + [r[1]] && p == [] + [p[0]];
    assert h == [] + [h[0]] + [h[1]] + [h[2]] + [h[3]];
  }

  function ShippedResources(): seq<Resources> {
    [Resources([RUNTIME_TEMPLATE], CLASS_TEMPLATE), Resources([PLUGIN_TEMPLATE], NO_CLASS),
     Resources([HostSetupTemplate("host-setup-ubuntu18-daemonset", "ubuntu", "18"),
                HostSetupTemplate("host-setup-ubuntu20-daemonset", "ubuntu", "20"),
                HostSetupTemplate("host-setup-ubuntu22-daemonset", "ubuntu", "22"),
                HostSetupTemplate("host-setup-centos7-daemonset", "centos", "7")], NO_CLASS)]
  }

  lemma HostSetupSound(name: string, osId: string, osMajor: string)
    requires TransformOf(name).HostSetup?
    ensures SoundTemplate(HostSetupTemplate(name, osId, osMajor))
  {
  }

  lemma TemplatesSound(i: nat, j: nat)
    requires i < 3 && j < |ShippedResources()[i].daemonSets|
    ensures SoundTemplate(ShippedResources()[i].daemonSets[j])
  {
    if i == 2 {
      HostSetupSound(ShippedResources()[2].daemonSets[j].name,
                     if j == 3 then "centos" else "ubuntu", ["18", "20", "22", "7"][j]);
    }
  }

  lemma SixDistinct(r: DaemonSet, p: DaemonSet, h0: DaemonSet, h1: DaemonSet, h2: DaemonSet, h3: DaemonSet,
                    rc: RuntimeClass, none: RuntimeClass)
    requires r.name !in [p.name, h0.name, h1.name, h2.name, h3.name]
    requires p.name !in [h0.name, h1.name, h2.name, h3.name]
    requires h0.name !in [h1.name, h2.name, h3.name] && h1.name !in [h2.name, h3.name] && h2.name != h3.name
    ensures DistinctTemplates([Resources([r], rc), Resources([p], none), Resources([h0, h1, h2, h3], none)])
  {
  }

  /** Lengths tell the names apart, and two digits the three Ubuntu releases. */
  lemma NamesDistinct()
    ensures DistinctTemplates(ShippedResources())
  {
    var r, p, h := RUNTIME_TEMPLATE, PLUGIN_TEMPLATE, ShippedResources()[2].daemonSets;
    assert |r.name| == 34 && |p.name| == 23;
    assert |h[0].name| == |h[1].name| == |h[2].name| == 29 && |h[3].name| == 28;
    assert h[0].name[17] == '1' && h[1].name[17] == '2' && h[2].name[17] == '2';
    assert h[1].name[18] == '0' && h[2].name[18] == '2';
    SixDistinct(r, p, h[0], h[1], h[2], h[3], CLASS_TEMPLATE, NO_CLASS);
  }

  /** Every shipped template can be prepared for every policy, names are distinct, and the only
      RuntimeClass is in the container-runtime state. */
  lemma ShippedSound(hash: Hash, namespaceVariable: string)
    ensures SoundManifests(ShippedConfig(hash, namespaceVariable))
    ensures ClassInOneState(ShippedConfig(hash, namespaceVariable))
  {
    var cfg := ShippedConfig(hash, namespaceVariable);
    ShippedRegistrations(hash, namespaceVariable);
    assert ResourcesOf(cfg) == ShippedResources();
    NamesDistinct();
    forall i: nat, j: nat | i < 3 && j < |ShippedResources()[i].daemonSets|
      ensures SoundTemplate(ShippedResources()[i].daemonSets[j])
    {
      TemplatesSound(i, j);
    }
  }

  /** Of the shipped templates two decide over their state's answer when it is disabled: the device plugin and the
      last of the four host setups. A failed removal of the container runtime or of another host setup is masked. */
  lemma ShippedDecisive(hash: Hash, namespaceVariable: string, policy: Subject, runtime: string, i: nat, j: nat)
    requires InPlan(PlanFor(ShippedConfig(hash, namespaceVariable), policy, runtime), i, j)
    ensures var p := PlanFor(ShippedConfig(hash, namespaceVariable), policy, runtime);
            WellPlanned(p) && (Decisive(p, i, j) <==> i == 1 || (i == 2 && j == 3))
  {
    var cfg := ShippedConfig(hash, namespaceVariable);
    var p := PlanFor(cfg, policy, runtime);
    ShippedSound(hash, namespaceVariable);
    PlanForWell(cfg, policy, runtime);
    ShippedRegistrations(hash, namespaceVariable);
    var rs := Registrations(cfg);
    assert p.controls[i] == rs[i].controls && p.resources[i] == rs[i].resources;
    assert LastRemoval(p, i) == if i == 0 then ClassRemove(0, 1) else Remove(i, |rs[i].resources.daemonSets| - 1);
  }
}
