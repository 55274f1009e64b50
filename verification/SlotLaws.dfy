/** What one visit does to the one stored DaemonSet it is about, for every schedule of failures. */
module SlotLaws {
  import opened Policy
  import opened Objects
  import opened Cluster
  import opened Enforcement

  ghost predicate StampedSlot(hash: Hash, slot: Option<DaemonSet>) {
    slot.Some? ==> Stamped(hash, slot.value)
  }

  lemma StampIsStamped(hash: Hash, d: DaemonSet)
    requires d.annotations.Some?
    ensures Stamped(hash, Stamp(hash, d)) && CarriesHash(Stamp(hash, d), hash(d))
  {
  }

  /** No failure, ambiguous or not, can leave an object whose hash is not that of its content. */
  lemma VisitKeepsStamp(c: Context, enabled: bool, i: nat, j: nat, t: DaemonSet, slot: Option<DaemonSet>, s: Schedule)
    requires StampedSlot(c.hash, slot)
    ensures StampedSlot(c.hash, Visit(c, enabled, i, j, t, slot, s).slot)
  {
    var p := Prepare(c, t);
    if p.Built? {
      StampIsStamped(c.hash, p.obj);
    }
  }

  /** A visit panics exactly on a template with too few containers or a stored object without annotations. */
  lemma PanicIff(c: Context, enabled: bool, i: nat, j: nat, t: DaemonSet, slot: Option<DaemonSet>, s: Schedule)
    ensures Visit(c, enabled, i, j, t, slot, s).outcome.Panicked? <==>
            enabled && (Prepare(c, t).Malformed? ||
                        (Prepare(c, t).Built? && s(Lookup(i, j)).fault.Working? &&
                         slot.Some? && slot.value.annotations.None?))
  {
  }

  /** What the policy asks the slot of a template to hold, when it asks for anything. */
  function Wanted(c: Context, enabled: bool, t: DaemonSet, slot: Option<DaemonSet>): Option<DaemonSet> {
    if !enabled then None
    else
      match Prepare(c, t)
      case Built(obj) => Some(Stamp(c.hash, obj))
      case NoSpec => None
      case _ => slot
  }

  /** The stored object carries the right hash over the wrong content, so an update is wrongly skipped. */
  predicate Fooled(c: Context, enabled: bool, t: DaemonSet, slot: Option<DaemonSet>) {
    c.caching && enabled && slot.Some? && Prepare(c, t).Built? &&
    CarriesHash(slot.value, c.hash(Prepare(c, t).obj)) && slot.value != Stamp(c.hash, Prepare(c, t).obj)
  }

  /** A visit without failures leaves what the policy asks for, unless the stored object fools it. */
  lemma HealsIff(c: Context, enabled: bool, i: nat, j: nat, t: DaemonSet, slot: Option<DaemonSet>, s: Schedule)
    requires FailureFree(s)
    requires !Visit(c, enabled, i, j, t, slot, s).outcome.Panicked?
    ensures Visit(c, enabled, i, j, t, slot, s).slot == Wanted(c, enabled, t, slot) <==> !Fooled(c, enabled, t, slot)
  {
  }

  /** The stored object is stamped, and its hash does not collide with that of the desired one. */
  ghost predicate TrustedSlot(c: Context, t: DaemonSet, slot: Option<DaemonSet>) {
    && StampedSlot(c.hash, slot)
    && (Prepare(c, t).Built? && slot.Some? ==> NoCollision(c.hash, slot.value, Prepare(c, t).obj))
  }

  /** Without collisions a stamped object that carries the hash of `d` is `d`, stamped. */
  lemma HashDetermines(hash: Hash, stored: DaemonSet, d: DaemonSet)
    requires d.annotations.Some? && Stamped(hash, stored) && NoCollision(hash, stored, d)
    requires CarriesHash(stored, hash(d))
    ensures stored == Stamp(hash, d)
  {
    var applied: DaemonSet :| applied.annotations.Some? && stored == Stamp(hash, applied);
    assert stored.annotations.value[HASH_KEY] == hash(applied);
  }

  /** A trusted object is never fooling. */
  lemma TrustedNotFooled(c: Context, enabled: bool, t: DaemonSet, slot: Option<DaemonSet>)
    requires TrustedSlot(c, t, slot)
    ensures !Fooled(c, enabled, t, slot)
  {
    var p := Prepare(c, t);
    if p.Built? && slot.Some? && CarriesHash(slot.value, c.hash(p.obj)) {
      HashDetermines(c.hash, slot.value, p.obj);
    }
  }
}
