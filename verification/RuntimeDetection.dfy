/** What runtime the operator takes the cluster to use. */
module RuntimeDetection {
  import opened Machine

  /** Some node's version string begins with the name of the runtime. */
  ghost predicate Reported(nodes: seq<string>, runtime: string) {
    exists v :: v in nodes && runtime <= v
  }

  lemma ReportedStep(nodes: seq<string>, runtime: string)
    requires nodes != []
    ensures Reported(nodes, runtime) <==> runtime <= nodes[0] || Reported(nodes[1..], runtime)
  {
    if Reported(nodes, runtime) {
      var v :| v in nodes && runtime <= v;
      assert v == nodes[0] || v in nodes[1..];
    }
    if Reported(nodes[1..], runtime) {
      var v :| v in nodes[1..] && runtime <= v;
      assert v in nodes;
    }
    if runtime <= nodes[0] {
      assert nodes[0] in nodes;
    }
  }

  /** What one node's string stands for; no string begins with both names. */
  lemma NodeRuntimeExact(version: string)
    ensures NodeRuntime(version) == "docker" <==> "docker" <= version
    ensures NodeRuntime(version) == "containerd" <==> "containerd" <= version
    ensures NodeRuntime(version) in {"docker", "containerd", ""}
  {
    assert "docker"[0] == 'd' && "containerd"[0] == 'c';
    assert "docker" <= version ==> version[0] == 'd';
    assert "containerd" <= version ==> version[0] == 'c';
  }

  lemma {:induction false} DetectFromExact(nodes: seq<string>, runtime: string)
    requires runtime in ["", "docker"]
    ensures DetectFrom(nodes, runtime) ==
            if Reported(nodes, "containerd") then "containerd"
            else if runtime == "docker" || Reported(nodes, "docker") then "docker" else ""
  {
    if nodes != [] {
      var rt := NodeRuntime(nodes[0]);
      NodeRuntimeExact(nodes[0]);
      ReportedStep(nodes, "containerd");
      ReportedStep(nodes, "docker");
      if rt != "containerd" {
        DetectFromExact(nodes[1..], if rt == "" then runtime else rt);
      }
    }
  }

  /** What a cluster's nodes and the policy's default say the runtime is, in no order of the nodes. */
  ghost function RuntimeOf(nodes: seq<string>, default: string): string {
    if Reported(nodes, "containerd") then "containerd"
    else if Reported(nodes, "docker") then "docker"
    else default
  }

  /** The detected runtime is containerd if some node's version string begins with that name, else docker if some
      string begins with that, else the policy's default. */
  lemma DetectRuntimeExact(nodes: seq<string>, default: string)
    ensures DetectRuntime(nodes, default) ==
            if exists v :: v in nodes && "containerd" <= v then "containerd"
            else if exists v :: v in nodes && "docker" <= v then "docker"
            else default
    ensures DetectRuntime(nodes, default) == RuntimeOf(nodes, default)
  {
    DetectFromExact(nodes, "");
  }
}
