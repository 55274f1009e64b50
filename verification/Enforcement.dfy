/** What the two control functions do to the cluster, on values. */
module Enforcement {
  import opened Policy
  import opened Objects
  import opened Transforms
  import opened Cluster

  /** What a control function knows: the policy, the namespace, the hash, and the transformation the
      policy's spec makes of a template. With `caching` off, the reference operator writes whether or
      not the hash says it must. */
  datatype Context = Context(
    policy: Subject, namespace: string, hash: Hash, caching: bool, transform: DaemonSet -> Prepared)

  function KeyOf(c: Context, t: DaemonSet): Key {
    Key(c.namespace, t.name)
  }

  /** The policy becomes the controlling owner, unless another object already is. */
  function Owned(c: Context, owner: Option<Owner>): Option<Owner> {
    if owner.Some? && owner.value.name != c.policy.name then None else Some(Owner(c.policy.name, c.policy.uid))
  }

  /** The DaemonSet the policy asks for, before its hash is added. */
  function Prepare(c: Context, t: DaemonSet): (p: Prepared)
    ensures p.Built? ==> p.obj.annotations.Some? && p.obj.owner == Some(Owner(c.policy.name, c.policy.uid))
  {
    match c.transform(t.(namespace := c.namespace))
    case Built(d) =>
      var owner := Owned(c, d.owner);
      if owner.None? then Rejected
      else Built(d.(owner := owner,
                    annotations := if d.annotations.None? then Some(map[]) else d.annotations))
    case other => other
  }

  /** How one template ended. The last two outcomes are those of a disabled state. */
  datatype Outcome = Good | Unmatched | Bad | Panicked | Retired | RetireFailed

  datatype Attempt = Attempt(slot: Option<DaemonSet>, outcome: Outcome, log: seq<Request>)

  predicate IsDaemonSetReady(slot: Option<DaemonSet>, tick: Tick) {
    tick.fault.Working? && slot.Some? && tick.unavailable == 0
  }

  /** Whether the found object must be updated, given the hash of the desired one. */
  predicate IsSpecChanged(current: DaemonSet, h: string) {
    !CarriesHash(current, h)
  }

  /** The create-or-update of a prepared object, on what is stored under its key. */
  function Apply(c: Context, i: nat, j: nat, key: Key, obj: DaemonSet, slot: Option<DaemonSet>, s: Schedule): Attempt
    requires obj.annotations.Some?
  {
    if !s(Lookup(i, j)).fault.Working? then Attempt(slot, Bad, [])
    else if slot.None? then
      var e := Create(slot, Stamp(c.hash, obj), s(Save(i, j)).fault);
      Attempt(e.slot, if e.ack.Done? && IsDaemonSetReady(e.slot, s(Readiness(i, j))) then Good else Bad,
              [CreateDaemonSet(key, Stamp(c.hash, obj))])
    else if slot.value.annotations.None? then Attempt(slot, Panicked, [])
    else if IsSpecChanged(slot.value, c.hash(obj)) || !c.caching then
      var e := Update(slot, Stamp(c.hash, obj), s(Save(i, j)).fault);
      Attempt(e.slot, if e.ack.Done? && IsDaemonSetReady(e.slot, s(Readiness(i, j))) then Good else Bad,
              [UpdateDaemonSet(key, Stamp(c.hash, obj))])
    else
      Attempt(slot, if IsDaemonSetReady(slot, s(Readiness(i, j))) then Good else Bad, [])
  }

  /** One template of an enabled state, on the object stored under its key. */
  function Enforce(c: Context, i: nat, j: nat, t: DaemonSet, slot: Option<DaemonSet>, s: Schedule): Attempt {
    var key := KeyOf(c, t);
    match Prepare(c, t)
    case Malformed => Attempt(slot, Panicked, [])
    case Rejected => Attempt(slot, Bad, [])
    case NoSpec =>
      var e := Delete(slot, s(Remove(i, j)).fault);
      Attempt(e.slot, if e.ack.Broken? then Bad else Unmatched, [DeleteDaemonSet(key)])
    case Built(obj) => Apply(c, i, j, key, obj, slot, s)
  }

  /** One template of a disabled state. */
  function Retire(c: Context, i: nat, j: nat, t: DaemonSet, slot: Option<DaemonSet>, s: Schedule): Attempt {
    var e := Delete(slot, s(Remove(i, j)).fault);
    Attempt(e.slot, if e.ack.Broken? then RetireFailed else Retired, [DeleteDaemonSet(KeyOf(c, t))])
  }

  function Visit(c: Context, enabled: bool, i: nat, j: nat, t: DaemonSet, slot: Option<DaemonSet>, s: Schedule)
    : Attempt
  {
    if enabled then Enforce(c, i, j, t, slot, s) else Retire(c, i, j, t, slot, s)
  }

  function Merge(result: State, outcome: Outcome): State {
    match outcome
    case Good => result
    case Unmatched => if result == Ready then Ignored else result
    case Bad => NotReady
    case Panicked => result
    case Retired => Disabled
    case RetireFailed => NotReady
  }

  function Record(w: World, key: Key, a: Attempt): World {
    w.(daemonSets := Put(w.daemonSets, key, a.slot), log := w.log + a.log)
  }

  /** How a control function ended: with a state, with an error, or in a panic. */
  datatype Verdict = Returned(state: State) | Failed | Crashed
  datatype Outgoing = Outgoing(w: World, verdict: Verdict)

  /** The DaemonSet control function from template `j` on, with the result so far. */
  function DaemonSetsFrom(c: Context, enabled: bool, i: nat, ts: seq<DaemonSet>, j: nat, result: State, w: World,
                          s: Schedule)
    : Outgoing
    requires j <= |ts|
    decreases |ts| - j
  {
    if j == |ts| then Outgoing(w, Returned(result))
    else
      var key := KeyOf(c, ts[j]);
      var a := Visit(c, enabled, i, j, ts[j], Slot(w.daemonSets, key), s);
      if a.outcome.Panicked? then Outgoing(Record(w, key, a), Crashed)
      else DaemonSetsFrom(c, enabled, i, ts, j + 1, Merge(result, a.outcome), Record(w, key, a), s)
  }

  /** The RuntimeClass the policy asks for, if the template may be owned by the policy. */
  function DesiredClass(c: Context, t: RuntimeClass): RuntimeClass {
    var name := RuntimeClassName(c.policy.spec);
    RuntimeClass(name, name, Some(Owner(c.policy.name, c.policy.uid)), t.rest)
  }

  /** The RuntimeClass control function `k` of state `i`. */
  function ApplyClass(c: Context, enabled: bool, i: nat, k: nat, t: RuntimeClass, w: World, s: Schedule): Outgoing {
    var name := RuntimeClassName(c.policy.spec);
    var slot := Slot(w.classes, name);
    if !enabled then
      var e := Delete(slot, s(ClassRemove(i, k)).fault);
      Outgoing(w.(classes := Put(w.classes, name, e.slot), log := w.log + [DeleteClass(name)]),
               Returned(if e.ack.Broken? then NotReady else Disabled))
    else if Owned(c, t.owner).None? || !s(ClassLookup(i, k)).fault.Working? then
      Outgoing(w, Failed)
    else
      var obj := DesiredClass(c, t);
      var fault := s(ClassSave(i, k)).fault;
      var e := if slot.None? then Create(slot, obj, fault) else Update(slot, obj, fault);
      Outgoing(w.(classes := Put(w.classes, name, e.slot),
                  log := w.log + [if slot.None? then CreateClass(obj) else UpdateClass(obj)]),
               if e.ack.Done? then Returned(Ready) else Failed)
  }
}
