/** The Kubernetes objects the operator manages, as the values the API server stores. */
module Objects {
  import opened Policy

  datatype Owner = Owner(name: string, uid: nat)

  datatype Volume = Volume(name: string, hostPath: string)
  datatype Mount = Mount(name: string, mountPath: string)

  /** A container argument. The generated shell scripts are kept as the data they are formatted from. */
  datatype Script =
    | Text(text: string)
    | InstallToolkit(runtime: string, installDir: string, runtimeClass: string,
                     configMount: string, socketMount: string, setAsDefault: bool)
    | InstallXrt(version: string, withXrm: bool)
    | FlashCards(version: string)
    | FlashDisabled
    | ReportAndSleep

  datatype Container = Container(
    name: string, image: string, imagePullPolicy: string,
    command: seq<string>, args: seq<Script>, env: seq<EnvVar>, mounts: seq<Mount>, rest: string)

  /** A DaemonSet without its status; `rest` stands for the manifest parts nobody touches. */
  datatype DaemonSet = DaemonSet(
    name: string, namespace: string, annotations: Option<map<string, string>>, owner: Option<Owner>,
    nodeSelector: Option<map<string, string>>,
    initContainers: seq<Container>, containers: seq<Container>,
    volumes: seq<Volume>, imagePullSecrets: seq<string>, rest: string)

  datatype RuntimeClass = RuntimeClass(name: string, handler: string, owner: Option<Owner>, rest: string)

  type Hash = DaemonSet -> string

  const HASH_KEY := "xilinx.com/last-applied-hash"

  /** The object as it goes out: with the hash of what it was before the hash was added. */
  function Stamp(hash: Hash, d: DaemonSet): DaemonSet
    requires d.annotations.Some?
  {
    d.(annotations := Some(d.annotations.value[HASH_KEY := hash(d)]))
  }

  /** Whether the object carries the hash of the content it was last applied with. */
  ghost predicate Stamped(hash: Hash, d: DaemonSet) {
    exists applied: DaemonSet :: applied.annotations.Some? && d == Stamp(hash, applied)
  }

  predicate CarriesHash(d: DaemonSet, h: string) {
    d.annotations.Some? && HASH_KEY in d.annotations.value && d.annotations.value[HASH_KEY] == h
  }

  /** No other content the object may have been stamped from has the hash of `d`. */
  ghost predicate NoCollision(hash: Hash, stored: DaemonSet, d: DaemonSet) {
    forall applied: DaemonSet ::
      applied.annotations.Some? && stored == Stamp(hash, applied) && hash(applied) == hash(d) ==> applied == d
  }
}
