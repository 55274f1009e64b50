/** What failure-free passes converge to, from any history, and that they then rest. */
module Convergence {
  import opened Policy
  import opened Objects
  import opened Cluster
  import opened Enforcement
  import opened SlotLaws
  import opened Machine
  import opened Pointwise
  import opened Passes
  import opened Readiness
  import opened Ledger
  import opened RequestLog

  /** Every enabled template can be prepared, and the policy may own the RuntimeClass. */
  ghost predicate Servable(p: Plan)
    requires Aligned(p)
  {
    && (forall i, j :: InPlan(p, i, j) && EnabledAt(p, i) ==>
          var prepared := Prepare(p.c, TemplateAt(p, i, j)); prepared.Built? || prepared.NoSpec?)
    && (forall i :: 0 <= i < |p.resources| ==> Owned(p.c, p.resources[i].runtimeClass.owner).Some?)
  }

  ghost predicate StampedPlan(p: Plan, w: World) {
    forall i, j :: InPlan(p, i, j) ==> StampedSlot(p.c.hash, Slot(w.daemonSets, KeyAt(p, i, j)))
  }

  /** The object stored for an enabled template has lost its annotations. */
  predicate Stripped(p: Plan, i: nat, j: nat, w: World)
    requires Aligned(p) && InPlan(p, i, j)
  {
    var slot := Slot(w.daemonSets, KeyAt(p, i, j));
    EnabledAt(p, i) && Prepare(p.c, TemplateAt(p, i, j)).Built? && slot.Some? && slot.value.annotations.None?
  }

  ghost predicate NoneStripped(p: Plan, w: World)
    requires Aligned(p)
  {
    forall i, j :: InPlan(p, i, j) ==> !Stripped(p, i, j, w)
  }

  lemma StampedNotStripped(p: Plan, w: World)
    requires Aligned(p) && StampedPlan(p, w)
    ensures NoneStripped(p, w)
  {
    forall i, j | InPlan(p, i, j) ensures !Stripped(p, i, j, w) {
      assert StampedSlot(p.c.hash, Slot(w.daemonSets, KeyAt(p, i, j)));
    }
  }

  /** A failure-free pass runs to its end exactly if no stored object has lost its annotations. */
  lemma FailureFreeCompletes(c: Context, k: Controller, name: string, wasReady: bool, w: World, s: Schedule)
    requires Begins(c, k) && WellPlanned(PlanOf(c, k)) && FailureFree(s) && Servable(PlanOf(c, k))
    ensures Completed(StepsFrom(c, k, name, wasReady, Ready, w, s).ending) <==> NoneStripped(PlanOf(c, k), w)
  {
    var p := PlanOf(c, k);
    CompletedIff(c, k, name, wasReady, w, s);
    forall i, j | InPlan(p, i, j) ensures Panics(p, i, j, w, s) <==> Stripped(p, i, j, w) {}
    forall i | 0 <= i < |p.resources|
      ensures Returns(p, i, w, s) <==> forall j :: InPlan(p, i, j) ==> !Stripped(p, i, j, w)
    {
      assert ClassesServed(p, i, |p.controls[i]|, s);
    }
    if i, j :| InPlan(p, i, j) && Stripped(p, i, j, w) {
      assert !Returns(p, i, w, s);
    }
  }

  /** A pass over stamped objects never panics, whatever fails. */
  lemma StampedNeverPanics(c: Context, k: Controller, name: string, wasReady: bool, w: World, s: Schedule)
    requires Begins(c, k) && WellPlanned(PlanOf(c, k)) && Servable(PlanOf(c, k)) && StampedPlan(PlanOf(c, k), w)
    ensures StepsFrom(c, k, name, wasReady, Ready, w, s).ending.Finished?
  {
    var p := PlanOf(c, k);
    CompletedIff(c, k, name, wasReady, w, s);
    StampedNotStripped(p, w);
    forall i, j | InPlan(p, i, j) ensures !Panics(p, i, j, w, s) {
      assert !Stripped(p, i, j, w);
    }
  }

  predicate FooledAt(p: Plan, i: nat, j: nat, w: World)
    requires Aligned(p) && InPlan(p, i, j)
  {
    Fooled(p.c, EnabledAt(p, i), TemplateAt(p, i, j), Slot(w.daemonSets, KeyAt(p, i, j)))
  }

  function WantedAt(p: Plan, i: nat, j: nat, w: World): Option<DaemonSet>
    requires Aligned(p) && InPlan(p, i, j)
  {
    Wanted(p.c, EnabledAt(p, i), TemplateAt(p, i, j), Slot(w.daemonSets, KeyAt(p, i, j)))
  }

  /** A failure-free pass leaves an object without annotations as it is. */
  lemma StrippedStays(c: Context, k: Controller, name: string, wasReady: bool, w: World, s: Schedule, i: nat, j: nat)
    requires Begins(c, k) && WellPlanned(PlanOf(c, k)) && FailureFree(s)
    requires InPlan(PlanOf(c, k), i, j) && Stripped(PlanOf(c, k), i, j, w)
    ensures var p := PlanOf(c, k);
            Slot(StepsFrom(c, k, name, wasReady, Ready, w, s).w.daemonSets, KeyAt(p, i, j)) ==
              Slot(w.daemonSets, KeyAt(p, i, j))
  {
    PassSlot(c, k, name, wasReady, Ready, w, s, i, j);
  }

  /** A failure-free pass repairs every managed DaemonSet, whoever changed it before, exactly if no stored
      object carries the right hash over the wrong content and none has lost its annotations. As long as none
      has lost them, each object is repaired exactly if it is not of the first kind. No other DaemonSet is
      touched. */
  lemma PassRepairsIff(c: Context, k: Controller, name: string, wasReady: bool, w: World, s: Schedule)
    requires Begins(c, k) && WellPlanned(PlanOf(c, k)) && FailureFree(s) && Servable(PlanOf(c, k))
    ensures var p, w' := PlanOf(c, k), StepsFrom(c, k, name, wasReady, Ready, w, s).w;
      && ((forall i, j :: InPlan(p, i, j) ==> Slot(w'.daemonSets, KeyAt(p, i, j)) == WantedAt(p, i, j, w)) <==>
          (forall i, j :: InPlan(p, i, j) ==> !FooledAt(p, i, j, w) && !Stripped(p, i, j, w)))
      && (NoneStripped(p, w) ==> forall i, j :: InPlan(p, i, j) ==>
            (Slot(w'.daemonSets, KeyAt(p, i, j)) == WantedAt(p, i, j, w) <==> !FooledAt(p, i, j, w)))
      && (forall key :: Unmanaged(p, 0, key) ==> Slot(w'.daemonSets, key) == Slot(w.daemonSets, key))
  {
    var p, w' := PlanOf(c, k), StepsFrom(c, k, name, wasReady, Ready, w, s).w;
    PassFrame(c, k, name, wasReady, Ready, w, s);
    FailureFreeCompletes(c, k, name, wasReady, w, s);
    if NoneStripped(p, w) {
      forall i, j | InPlan(p, i, j)
        ensures Slot(w'.daemonSets, KeyAt(p, i, j)) == WantedAt(p, i, j, w) <==> !FooledAt(p, i, j, w)
      {
        CompletedVisits(c, k, name, wasReady, w, s, i, j);
        HealsIff(c, EnabledAt(p, i), i, j, TemplateAt(p, i, j), Slot(w.daemonSets, KeyAt(p, i, j)), s);
      }
    } else {
      var i, j :| InPlan(p, i, j) && Stripped(p, i, j, w);
      StrippedStays(c, k, name, wasReady, w, s, i, j);
      assert Slot(w'.daemonSets, KeyAt(p, i, j)) != WantedAt(p, i, j, w);
    }
  }

  /** What a pass leaves for a template, as a function of the plan alone. */
  function Target(p: Plan, i: nat, j: nat): Option<DaemonSet>
    requires Aligned(p) && InPlan(p, i, j)
  {
    var prepared := Prepare(p.c, TemplateAt(p, i, j));
    if EnabledAt(p, i) && prepared.Built? then Some(Stamp(p.c.hash, prepared.obj)) else None
  }

  /** The requests of the template's visit that bring its object to the target take effect. */
  predicate TakesEffect(p: Plan, i: nat, j: nat, s: Schedule)
    requires Aligned(p) && InPlan(p, i, j)
  {
    if EnabledAt(p, i) && Prepare(p.c, TemplateAt(p, i, j)).Built?
    then s(Lookup(i, j)).fault.Working? && !s(Save(i, j)).fault.Refused?
    else !s(Remove(i, j)).fault.Refused?
  }

  lemma VisitAims(p: Plan, i: nat, j: nat, w: World, s: Schedule)
    requires Aligned(p) && InPlan(p, i, j) && Servable(p) && !FooledAt(p, i, j, w)
    ensures var a, slot := VisitAt(p, i, j, w, s), Slot(w.daemonSets, KeyAt(p, i, j));
      && !Fooled(p.c, EnabledAt(p, i), TemplateAt(p, i, j), a.slot)
      && (!a.outcome.Panicked? ==>
            (a.slot == Target(p, i, j) <==> slot == Target(p, i, j) || TakesEffect(p, i, j, s)))
  {
    var prepared := Prepare(p.c, TemplateAt(p, i, j));
    assert EnabledAt(p, i) ==> prepared.Built? || prepared.NoSpec?;
  }

  /** For every schedule, after a pass the object of a template is what the plan asks for exactly if it was before,
      or the pass got to the template and the requests about its object took effect; and it can only get to be
      fooling by having been so. */
  lemma OnTargetIff(c: Context, k: Controller, name: string, wasReady: bool, w: World, s: Schedule, i: nat, j: nat)
    requires Begins(c, k) && WellPlanned(PlanOf(c, k)) && Servable(PlanOf(c, k)) && InPlan(PlanOf(c, k), i, j)
    requires !FooledAt(PlanOf(c, k), i, j, w)
    ensures var p, r := PlanOf(c, k), StepsFrom(c, k, name, wasReady, Ready, w, s);
      && !FooledAt(p, i, j, r.w)
      && (Slot(r.w.daemonSets, KeyAt(p, i, j)) == Target(p, i, j) <==>
            || Slot(w.daemonSets, KeyAt(p, i, j)) == Target(p, i, j)
            || (Visited(p, r.controller.idx, i, j, w, s) && TakesEffect(p, i, j, s)))
  {
    var p, r := PlanOf(c, k), StepsFrom(c, k, name, wasReady, Ready, w, s);
    PassSlot(c, k, name, wasReady, Ready, w, s, i, j);
    VisitAims(p, i, j, w, s);
    if Visited(p, r.controller.idx, i, j, w, s) {
      StepsLeftBehind(c, k, name, wasReady, Ready, w, s, i);
      ReachCalm(c, EnabledAt(p, i), i, 0, p.controls[i], p.resources[i], w, s, j);
    }
  }

  /** From any stored state that carries true hashes and no collisions, one failure-free pass makes
      every managed DaemonSet what the plan asks for: nothing of the history remains. */
  lemma HistoryIndependence(c: Context, k: Controller, name: string, wasReady: bool, w: World, s: Schedule)
    requires Begins(c, k) && WellPlanned(PlanOf(c, k)) && FailureFree(s) && Servable(PlanOf(c, k))
    requires forall i, j :: InPlan(PlanOf(c, k), i, j) ==> Trusted(PlanOf(c, k), i, j, w)
    ensures var p, r := PlanOf(c, k), StepsFrom(c, k, name, wasReady, Ready, w, s);
      && Completed(r.ending)
      && (forall i, j :: InPlan(p, i, j) ==> Slot(r.w.daemonSets, KeyAt(p, i, j)) == Target(p, i, j))
      && (forall key :: Unmanaged(p, 0, key) ==> Slot(r.w.daemonSets, key) == Slot(w.daemonSets, key))
  {
    var p, r := PlanOf(c, k), StepsFrom(c, k, name, wasReady, Ready, w, s);
    assert StampedPlan(p, w) by {
      forall i, j | InPlan(p, i, j) ensures StampedSlot(c.hash, Slot(w.daemonSets, KeyAt(p, i, j))) {
        assert Trusted(p, i, j, w);
      }
    }
    StampedNotStripped(p, w);
    FailureFreeCompletes(c, k, name, wasReady, w, s);
    PassRepairsIff(c, k, name, wasReady, w, s);
    forall i, j | InPlan(p, i, j)
      ensures Slot(r.w.daemonSets, KeyAt(p, i, j)) == Target(p, i, j)
    {
      assert Trusted(p, i, j, w);
      TrustedNotFooled(c, EnabledAt(p, i), TemplateAt(p, i, j), Slot(w.daemonSets, KeyAt(p, i, j)));
      assert !FooledAt(p, i, j, w);
    }
  }

  // ----- rest

  /** Nothing to do for the template: its object is there with the desired hash, or rightly absent. */
  predicate Quiet(c: Context, enabled: bool, t: DaemonSet, slot: Option<DaemonSet>) {
    if !enabled then slot.None?
    else
      match Prepare(c, t)
      case Built(obj) => slot.Some? && CarriesHash(slot.value, c.hash(obj))
      case NoSpec => slot.None?
      case _ => true
  }

  predicate QuietAt(p: Plan, i: nat, j: nat, w: World)
    requires Aligned(p) && InPlan(p, i, j)
  {
    Quiet(p.c, EnabledAt(p, i), TemplateAt(p, i, j), Slot(w.daemonSets, KeyAt(p, i, j)))
  }

  ghost predicate AtRest(p: Plan, w: World)
    requires Aligned(p)
  {
    forall i, j :: InPlan(p, i, j) ==> QuietAt(p, i, j, w)
  }

  predicate WritesNoDaemonSet(r: Request) {
    !r.CreateDaemonSet? && !r.UpdateDaemonSet?
  }

  const NO_DAEMON_SET_WRITES: Rule := (r: Request) => WritesNoDaemonSet(r)

  lemma QuietVisit(c: Context, enabled: bool, i: nat, j: nat, t: DaemonSet, slot: Option<DaemonSet>, s: Schedule)
    requires c.caching && Quiet(c, enabled, t, slot)
    ensures var a := Visit(c, enabled, i, j, t, slot, s);
            a.slot == slot && AllFrom(a.log, 0, NO_DAEMON_SET_WRITES)
  {
  }

  lemma VisitQuiets(c: Context, enabled: bool, i: nat, j: nat, t: DaemonSet, slot: Option<DaemonSet>, s: Schedule)
    requires FailureFree(s) && !Visit(c, enabled, i, j, t, slot, s).outcome.Panicked?
    ensures Quiet(c, enabled, t, Visit(c, enabled, i, j, t, slot, s).slot)
  {
  }

  /** A failure-free pass leaves the cluster at rest exactly if no stored object has lost its annotations,
      even where hashes collide. */
  lemma PassBringsRest(c: Context, k: Controller, name: string, wasReady: bool, w: World, s: Schedule)
    requires Begins(c, k) && WellPlanned(PlanOf(c, k)) && FailureFree(s) && Servable(PlanOf(c, k))
    ensures AtRest(PlanOf(c, k), StepsFrom(c, k, name, wasReady, Ready, w, s).w) <==> NoneStripped(PlanOf(c, k), w)
  {
    var p, w' := PlanOf(c, k), StepsFrom(c, k, name, wasReady, Ready, w, s).w;
    FailureFreeCompletes(c, k, name, wasReady, w, s);
    if NoneStripped(p, w) {
      forall i, j | InPlan(p, i, j) ensures QuietAt(p, i, j, w') {
        CompletedVisits(c, k, name, wasReady, w, s, i, j);
        VisitQuiets(c, EnabledAt(p, i), i, j, TemplateAt(p, i, j), Slot(w.daemonSets, KeyAt(p, i, j)), s);
      }
    } else {
      var i, j :| InPlan(p, i, j) && Stripped(p, i, j, w);
      StrippedStays(c, k, name, wasReady, w, s, i, j);
      assert !QuietAt(p, i, j, w');
    }
  }

  lemma SameSlotsSameStore<K(!new), T>(a: map<K, T>, b: map<K, T>)
    requires forall key :: Slot(a, key) == Slot(b, key)
    ensures a == b
  {
    forall key ensures key in a <==> key in b { assert Slot(a, key) == Slot(b, key); }
    forall key | key in a ensures a[key] == b[key] { assert Slot(a, key) == Slot(b, key); }
  }

  /** At rest, a pass for the same policy changes no DaemonSet and sends neither a create nor an
      update for one, whatever fails and however many pods come and go. */
  lemma RestLasts(c: Context, k: Controller, name: string, wasReady: bool, w: World, s: Schedule)
    requires c.caching && Begins(c, k) && WellPlanned(PlanOf(c, k)) && AtRest(PlanOf(c, k), w)
    ensures var w' := StepsFrom(c, k, name, wasReady, Ready, w, s).w;
      && w'.daemonSets == w.daemonSets
      && w.log <= w'.log && AllFrom(w'.log, |w.log|, NO_DAEMON_SET_WRITES)
  {
    var p, w' := PlanOf(c, k), StepsFrom(c, k, name, wasReady, Ready, w, s).w;
    forall i | 0 <= i < |p.resources|
      ensures VisitsObey(p.c, EnabledAt(p, i), i, p.resources[i].daemonSets, 0, w, s, NO_DAEMON_SET_WRITES)
    {
      forall j | 0 <= j < |p.resources[i].daemonSets|
        ensures AllFrom(VisitNow(p.c, EnabledAt(p, i), i, p.resources[i].daemonSets, j, w, s).log, 0,
                        NO_DAEMON_SET_WRITES)
      {
        assert QuietAt(p, i, j, w);
        QuietVisit(c, EnabledAt(p, i), i, j, TemplateAt(p, i, j), Slot(w.daemonSets, KeyAt(p, i, j)), s);
      }
    }
    PassLog(c, k, name, wasReady, Ready, w, s, |w.log|, NO_DAEMON_SET_WRITES);
    PassFrame(c, k, name, wasReady, Ready, w, s);
    forall key ensures Slot(w'.daemonSets, key) == Slot(w.daemonSets, key) {
      if !Unmanaged(p, 0, key) {
        var i, j :| 0 <= i && InPlan(p, i, j) && key == KeyAt(p, i, j);
        assert QuietAt(p, i, j, w);
        QuietVisit(c, EnabledAt(p, i), i, j, TemplateAt(p, i, j), Slot(w.daemonSets, key), s);
        PassSlot(c, k, name, wasReady, Ready, w, s, i, j);
      }
    }
    SameSlotsSameStore(w'.daemonSets, w.daemonSets);
  }
}
