/** Which nodes the DaemonSets run on, and which parts of the spec they depend on. */
module TransformLaws {
  import opened Policy
  import opened Objects
  import opened Transforms
  import opened ImageReference

  /** The scheduler's rule: every pair of the selector is a label of the node. */
  ghost predicate RunsOn(d: DaemonSet, node: map<string, string>) {
    d.nodeSelector.Some? ==>
      forall k :: k in d.nodeSelector.value ==> k in node && node[k] == d.nodeSelector.value[k]
  }

  const FPGA_LABEL := "feature.node.kubernetes.io/pci-1200_10ee.present"

  /** The container runtime and the device plugin run on nodes with an FPGA only. */
  lemma FpgaNodesOnly(d: DaemonSet, spec: Spec, runtime: string, node: map<string, string>)
    requires TransformOf(d.name).ContainerRuntime? || TransformOf(d.name).DevicePlugin?
    requires var p := PreProcess(d, spec, runtime); p.Built? && RunsOn(p.obj, node)
    ensures FPGA_LABEL in node && node[FPGA_LABEL] == "true"
  {
    var selector := PreProcess(d, spec, runtime).obj.nodeSelector;
    assert selector == Some(WithLabels(d.nodeSelector, FPGA_NODE_LABELS));
    assert FPGA_LABEL in selector.value && selector.value[FPGA_LABEL] == "true";
  }

  /** A template that pins the operating system and its major version. */
  predicate PinsOs(d: DaemonSet) {
    d.nodeSelector.Some? && OS_ID_LABEL in d.nodeSelector.value && OS_MAJOR_LABEL in d.nodeSelector.value
  }

  predicate SameOs(a: DaemonSet, b: DaemonSet)
    requires PinsOs(a) && PinsOs(b)
  {
    a.nodeSelector.value[OS_ID_LABEL] == b.nodeSelector.value[OS_ID_LABEL] &&
    a.nodeSelector.value[OS_MAJOR_LABEL] == b.nodeSelector.value[OS_MAJOR_LABEL]
  }

  lemma PinnedNode(d: DaemonSet, node: map<string, string>)
    requires PinsOs(d) && RunsOn(d, node)
    ensures OS_ID_LABEL in node && node[OS_ID_LABEL] == d.nodeSelector.value[OS_ID_LABEL]
    ensures OS_MAJOR_LABEL in node && node[OS_MAJOR_LABEL] == d.nodeSelector.value[OS_MAJOR_LABEL]
  {
  }

  /** No node is set up by two host-setup DaemonSets whose templates pin different systems. */
  lemma OneHostSetupPerNode(a: DaemonSet, b: DaemonSet, spec: Spec, runtime: string, node: map<string, string>)
    requires TransformOf(a.name).HostSetup? && TransformOf(b.name).HostSetup?
    requires PinsOs(a) && PinsOs(b) && !SameOs(a, b)
    requires PreProcess(a, spec, runtime).Built? && PreProcess(b, spec, runtime).Built?
    ensures !(RunsOn(PreProcess(a, spec, runtime).obj, node) && RunsOn(PreProcess(b, spec, runtime).obj, node))
  {
    var x, y := PreProcess(a, spec, runtime).obj, PreProcess(b, spec, runtime).obj;
    assert x.nodeSelector == a.nodeSelector && y.nodeSelector == b.nodeSelector;
    if RunsOn(x, node) && RunsOn(y, node) {
      PinnedNode(x, node);
      PinnedNode(y, node);
    }
  }

  // ----- the listed cards

  function WithCards(spec: Spec, i: nat, cards: seq<string>): Spec
    requires i < |spec.hostSetup.osDists|
  {
    var dists := spec.hostSetup.osDists;
    spec.(hostSetup := spec.hostSetup.(osDists := dists[i := dists[i].(cards := cards)]))
  }

  lemma FirstMatchUnique(dists: seq<OsDist>, selector: map<string, string>, i: nat)
    requires i <= |dists| && (i < |dists| ==> Matches(dists[i], selector))
    requires forall k :: 0 <= k < i ==> !Matches(dists[k], selector)
    ensures FirstMatch(dists, selector) == i
  {
  }

  /** The cards listed for a system have no influence on what is deployed. */
  lemma CardsIgnored(d: DaemonSet, spec: Spec, runtime: string, i: nat, cards: seq<string>)
    requires i < |spec.hostSetup.osDists|
    ensures PreProcess(d, WithCards(spec, i, cards), runtime) == PreProcess(d, spec, runtime)
  {
    var dists, dists' := spec.hostSetup.osDists, WithCards(spec, i, cards).hostSetup.osDists;
    if TransformOf(d.name).HostSetup? && d.nodeSelector.Some? {
      var selector := d.nodeSelector.value;
      forall k | 0 <= k < |dists| ensures Matches(dists'[k], selector) == Matches(dists[k], selector) {}
      FirstMatchUnique(dists', selector, FirstMatch(dists, selector));
    }
  }

  // ----- images

  /** A changed device-plugin image is always a changed DaemonSet. */
  lemma ImageChangeShows(d: DaemonSet, spec: Spec, spec': Spec, runtime: string)
    requires TransformOf(d.name).DevicePlugin? && d.containers != []
    requires var p, p' := spec.devicePlugin, spec'.devicePlugin;
      && CleanImage(p.image) && CleanImage(p'.image) && '/' !in p.tag && '/' !in p'.tag
      && (p.repository != p'.repository || p.image != p'.image || p.tag != p'.tag)
    ensures PreProcess(d, spec, runtime) != PreProcess(d, spec', runtime)
  {
    var p, p' := spec.devicePlugin, spec'.devicePlugin;
    if ImagePath(p.repository, p.image, p.tag) == ImagePath(p'.repository, p'.image, p'.tag) {
      ImagePathInjective(p.repository, p.image, p.tag, p'.repository, p'.image, p'.tag);
      assert false;
    }
    assert PreProcess(d, spec, runtime).obj.containers[0].image == ImagePath(p.repository, p.image, p.tag);
    assert PreProcess(d, spec', runtime).obj.containers[0].image == ImagePath(p'.repository, p'.image, p'.tag);
  }
}
