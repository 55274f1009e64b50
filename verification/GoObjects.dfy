/** The DaemonSet objects the operator builds in memory. Go maps are references, which objects may
    share; a container is reached through the object whose slice holds it. */
module GoObjects {
  import opened Policy
  import opened Objects
  import opened Transforms

  /** A Go map from strings to strings, shared by whoever holds it. */
  class Labels {
    var m: map<string, string>

    constructor (m: map<string, string>)
      ensures this.m == m
    {
      this.m := m;
    }
  }

  function LabelsValue(l: Labels?): Option<map<string, string>>
    reads l
  {
    if l == null then None else Some(l.m)
  }

  ghost function PartOf(l: Labels?): set<object> {
    if l == null then {} else {l}
  }

  method NewLabels(value: Option<map<string, string>>) returns (l: Labels?)
    ensures LabelsValue(l) == value && fresh(PartOf(l))
  {
    l := null;
    if value.Some? {
      l := new Labels(value.value);
    }
  }

  class DaemonSetObject {
    var name: string
    var namespace: string
    var annotations: Labels?
    var owner: Option<Owner>
    var nodeSelector: Labels?
    var initContainers: seq<Container>
    var containers: seq<Container>
    var volumes: seq<Volume>
    var imagePullSecrets: seq<string>
    var rest: string

    /** The object and the maps it refers to. */
    ghost function Parts(): set<object>
      reads this
    {
      {this} + PartOf(annotations) + PartOf(nodeSelector)
    }

    /** The annotations are the object's own map. */
    ghost predicate Valid()
      reads this
    {
      annotations == null || annotations != nodeSelector
    }

    /** What the API server would be sent. */
    function Value(): DaemonSet
      reads this, annotations, nodeSelector
    {
      DaemonSet(name, namespace, LabelsValue(annotations), owner, LabelsValue(nodeSelector),
                initContainers, containers, volumes, imagePullSecrets, rest)
    }

    /** A fresh object of the given value. */
    constructor (d: DaemonSet)
      ensures Valid() && Value() == d && fresh(Parts())
    {
      var a := NewLabels(d.annotations);
      var l := NewLabels(d.nodeSelector);
      name, namespace, owner := d.name, d.namespace, d.owner;
      annotations, nodeSelector := a, l;
      initContainers, containers, volumes := d.initContainers, d.containers, d.volumes;
      imagePullSecrets, rest := d.imagePullSecrets, d.rest;
    }

    /** A copy that shares nothing with the original. */
    method DeepCopy() returns (copy: DaemonSetObject)
      ensures copy.Valid() && copy.Value() == Value() && fresh(copy.Parts())
    {
      copy := new DaemonSetObject(Value());
    }

    /** Changes the main container and no other. */
    method SetMain(c: Container)
      requires containers != []
      modifies this`containers
      ensures containers != [] && containers[0] == c && containers[1..] == old(containers)[1..]
    {
      containers := containers[0 := c];
    }

    /** Sets one environment variable of the main container in place, or adds it at the end. */
    method SetContainerEnv(key: string, value: string)
      requires containers != []
      modifies this`containers
      ensures containers != [] && containers[1..] == old(containers)[1..]
      ensures containers[0] == old(containers[0]).(env := Upsert(old(containers[0].env), key, value))
    {
      var env := containers[0].env;
      var i := 0;
      while i < |env|
        invariant i <= |env|
        invariant forall k :: 0 <= k < i ==> env[k].name != key
      {
        if env[i].name == key {
          SetMain(containers[0].(env := env[i := env[i].(value := value)]));
          return;
        }
        i := i + 1;
      }
      SetMain(containers[0].(env := env + [EnvVar(key, value)]));
    }

    /** Sets the policy's variables one after the other. */
    method SetContainerEnvs(updates: seq<EnvVar>)
      requires containers != []
      modifies this`containers
      ensures containers != [] && containers[1..] == old(containers)[1..]
      ensures containers[0] == old(containers[0]).(env := UpsertAll(old(containers[0].env), updates))
    {
      for i := 0 to |updates|
        invariant containers != [] && containers[1..] == old(containers)[1..]
        invariant containers[0] == old(containers[0]).(env := containers[0].env)
        invariant UpsertAll(containers[0].env, updates[i..]) == UpsertAll(old(containers[0].env), updates)
      {
        assert updates[i..][1..] == updates[i + 1..];
        SetContainerEnv(updates[i].name, updates[i].value);
      }
    }

    method AddPullSecrets(secrets: seq<string>)
      modifies this`imagePullSecrets
      ensures imagePullSecrets == old(imagePullSecrets) + secrets
    {
      for i := 0 to |secrets|
        invariant imagePullSecrets == old(imagePullSecrets) + secrets[..i]
      {
        imagePullSecrets := imagePullSecrets + [secrets[i]];
      }
      assert secrets[..|secrets|] == secrets;
    }

    method AddVolume(volume: Volume, mount: Mount)
      requires containers != []
      modifies this`volumes, this`containers
      ensures volumes == old(volumes) + [volume]
      ensures containers != [] && containers[1..] == old(containers)[1..]
      ensures containers[0] == old(containers[0]).(mounts := old(containers[0].mounts) + [mount])
    {
      volumes := volumes + [volume];
      SetMain(containers[0].(mounts := containers[0].mounts + [mount]));
    }

    /** Adds volumes to the object and their mounts to the main container. */
    method AddVolumes(vs: seq<Volume>, ms: seq<Mount>)
      requires containers != [] && |vs| == |ms|
      modifies this`volumes, this`containers
      ensures volumes == old(volumes) + vs
      ensures containers != [] && containers[1..] == old(containers)[1..]
      ensures containers[0] == old(containers[0]).(mounts := old(containers[0].mounts) + ms)
    {
      for i := 0 to |vs|
        invariant volumes == old(volumes) + vs[..i]
        invariant containers != [] && containers[1..] == old(containers)[1..]
        invariant containers[0] == old(containers[0]).(mounts := old(containers[0].mounts) + ms[..i])
      {
        AddVolume(vs[i], ms[i]);
        assert ms[..i + 1] == ms[..i] + [ms[i]];
      }
      assert vs[..|vs|] == vs && ms[..|ms|] == ms;
    }

    /** Adds the labels to the selector. Without a selector the object takes the shared map itself. */
    method SetDaemonSetSelector(labels: Labels)
      modifies this`nodeSelector, nodeSelector
      ensures labels.m == old(labels.m)
      ensures nodeSelector != null && nodeSelector.m == WithLabels(old(LabelsValue(nodeSelector)), labels.m)
      ensures nodeSelector == if old(nodeSelector) == null then labels else old(nodeSelector)
    {
      if nodeSelector == null {
        nodeSelector := labels;
      } else {
        AddLabels(nodeSelector, labels);
      }
    }
  }

  lemma ReplaceFirst(a: seq<Container>, b: seq<Container>)
    requires a != [] && b != [] && a[1..] == b[1..]
    ensures a == b[0 := a[0]]
  {
    assert a == [a[0]] + a[1..] && b[0 := a[0]] == [a[0]] + b[1..];
  }

  lemma Merged(a: map<string, string>, b: map<string, string>, c: map<string, string>)
    requires forall k :: k in c <==> k in a || k in b
    requires forall k :: k in c ==> c[k] == if k in b then b[k] else a[k]
    ensures c == a + b
  {
  }

  /** Adds every label to the map, one key at a time. */
  method AddLabels(target: Labels, labels: Labels)
    modifies target
    ensures target.m == old(target.m + labels.m) && labels.m == old(labels.m)
  {
    ghost var before, added := target.m, labels.m;
    var keys := labels.m.Keys;
    while keys != {}
      invariant keys <= added.Keys && labels.m == added
      invariant forall k :: k in target.m <==> k in before || (k in added && k !in keys)
      invariant forall k :: k in target.m && k in added && k !in keys ==> target.m[k] == added[k]
      invariant forall k :: k in target.m && (k !in added || k in keys) ==> target.m[k] == before[k]
      decreases |keys|
    {
      var k :| k in keys;
      ghost var last := target.m;
      target.m := target.m[k := labels.m[k]];
      assert target.m == last[k := added[k]];
      if target == labels {
        assert last[k := added[k]] == added;
      }
      keys := keys - {k};
    }
    Merged(before, added, target.m);
  }
}
