/** The API server: atomic requests on stored objects, any of which may fail. */
module Cluster {
  import opened Policy
  import opened Objects

  /** A request may work, fail without effect, or fail after it took effect. */
  datatype Fault = Working | Refused | Ambiguous

  /** Where in a pass a request is issued: the state `i` and its template or control `j`. */
  datatype Site =
    | FetchPolicy
    | StatusRead(i: nat) | StatusWrite(i: nat)
    | Lookup(i: nat, j: nat) | Save(i: nat, j: nat) | Remove(i: nat, j: nat) | Readiness(i: nat, j: nat)
    | ClassLookup(i: nat, j: nat) | ClassSave(i: nat, j: nat) | ClassRemove(i: nat, j: nat)

  /** What the server does at one site; `unavailable` is the pod count a readiness check sees. */
  datatype Tick = Tick(fault: Fault, unavailable: nat)

  /** Every request of a pass has its own site, so a schedule is an arbitrary adversary. */
  type Schedule = Site -> Tick

  ghost predicate FailureFree(s: Schedule) {
    forall site :: s(site).fault.Working?
  }

  datatype Key = Key(namespace: string, name: string)

  /** The requests that may change a stored object. */
  datatype Request =
    | CreateDaemonSet(key: Key, obj: DaemonSet)
    | UpdateDaemonSet(key: Key, obj: DaemonSet)
    | DeleteDaemonSet(key: Key)
    | CreateClass(class_: RuntimeClass)
    | UpdateClass(class_: RuntimeClass)
    | DeleteClass(className: string)
    | PutStatus(policy: string, status: Status)

  datatype World = World(
    policies: map<string, Stored>, daemonSets: map<Key, DaemonSet>, classes: map<string, RuntimeClass>,
    log: seq<Request>)

  datatype Ack = Done | Absent | Broken

  /** One request's effect on the one object it names. */
  datatype Effect<T> = Effect(slot: Option<T>, ack: Ack)

  function Create<T>(slot: Option<T>, obj: T, fault: Fault): Effect<T> {
    Effect(if slot.Some? || fault.Refused? then slot else Some(obj),
           if slot.Some? || !fault.Working? then Broken else Done)
  }

  function Update<T>(slot: Option<T>, obj: T, fault: Fault): Effect<T> {
    Effect(if slot.None? || fault.Refused? then slot else Some(obj),
           if !fault.Working? then Broken else if slot.None? then Absent else Done)
  }

  function Delete<T>(slot: Option<T>, fault: Fault): Effect<T> {
    Effect(if fault.Refused? then slot else None,
           if !fault.Working? then Broken else if slot.None? then Absent else Done)
  }

  function Slot<K, T>(store: map<K, T>, key: K): Option<T> {
    if key in store then Some(store[key]) else None
  }

  function Put<K(!new), T>(store: map<K, T>, key: K, slot: Option<T>): (r: map<K, T>)
    ensures Slot(r, key) == slot
    ensures forall k :: k != key ==> Slot(r, k) == Slot(store, k)
  {
    match slot
    case Some(v) => store[key := v]
    case None => store - {key}
  }
}
