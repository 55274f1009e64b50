/** When Ready means that the DaemonSets of the disabled states are gone. */
module Cleanup {
  import opened Policy
  import opened Objects
  import opened Cluster
  import opened Enforcement
  import opened Machine
  import opened Passes
  import opened Readiness
  import opened Convergence

  /** For every schedule: the DaemonSet of a disabled template is gone after a pass exactly if it was not there
      before, or the pass got to it and its own removal took effect. */
  lemma RetiredIff(c: Context, k: Controller, name: string, wasReady: bool, w: World, s: Schedule, i: nat, j: nat)
    requires Begins(c, k) && WellPlanned(PlanOf(c, k)) && InPlan(PlanOf(c, k), i, j) && !EnabledAt(PlanOf(c, k), i)
    ensures var p, r := PlanOf(c, k), StepsFrom(c, k, name, wasReady, Ready, w, s);
            Slot(r.w.daemonSets, KeyAt(p, i, j)) == None <==>
            Slot(w.daemonSets, KeyAt(p, i, j)) == None ||
            (Visited(p, r.controller.idx, i, j, w, s) && !s(Remove(i, j)).fault.Refused?)
  {
    PassSlot(c, k, name, wasReady, Ready, w, s, i, j);
  }

  /** The answer of the disabled state is that of this template's removal. */
  ghost predicate Decisive(p: Plan, i: nat, j: nat)
    requires WellPlanned(p) && InPlan(p, i, j)
  {
    assert DaemonSetControl in p.controls[i];
    LastRemoval(p, i) == Remove(i, j)
  }

  /** Everything works but the removal of one template's object. */
  function RefuseRemoval(i: nat, j: nat): Schedule {
    (site: Site) => Tick(if site == Remove(i, j) then Refused else Working, 0)
  }

  /** A disabled state is fine although a DaemonSet could not be removed, if any other removal comes last: that of
      its RuntimeClass or of a later template. */
  lemma FailedCleanupMasked(p: Plan, i: nat, j: nat, w: World)
    requires WellPlanned(p) && InPlan(p, i, j) && !EnabledAt(p, i) && !Decisive(p, i, j)
    ensures var s := RefuseRemoval(i, j);
            Fine(StepVerdict(p, i, w, s)) &&
            VisitAt(p, i, j, w, s).outcome == RetireFailed &&
            VisitAt(p, i, j, w, s).slot == Slot(w.daemonSets, KeyAt(p, i, j))
  {
    DisabledStepFine(p, i, w, RefuseRemoval(i, j));
  }

  /** A disabled state that answers fine is sure to be cleaned up, whatever fails, exactly if the only DaemonSet it
      has stored is the one removed last, and nothing is removed behind it. */
  lemma StateCleanupIff(p: Plan, i: nat, w: World)
    requires WellPlanned(p) && i < |p.resources| && !EnabledAt(p, i)
    ensures (forall s: Schedule, j: nat :: InPlan(p, i, j) && Fine(StepVerdict(p, i, w, s)) ==>
               VisitAt(p, i, j, w, s).slot == None) <==>
            (forall j: nat :: InPlan(p, i, j) && Slot(w.daemonSets, KeyAt(p, i, j)).Some? ==> Decisive(p, i, j))
  {
    forall s: Schedule, j: nat | InPlan(p, i, j) && Fine(StepVerdict(p, i, w, s)) && Decisive(p, i, j)
      ensures VisitAt(p, i, j, w, s).slot == None
    {
      DisabledStepFine(p, i, w, s);
    }
    if j: nat :| InPlan(p, i, j) && Slot(w.daemonSets, KeyAt(p, i, j)).Some? && !Decisive(p, i, j) {
      FailedCleanupMasked(p, i, j, w);
      assert VisitAt(p, i, j, w, RefuseRemoval(i, j)).slot != None;
    }
  }

  // ----- the whole pass

  /** A pass could report Ready: every enabled template can be prepared, its object has not lost its annotations,
      and the policy may own the RuntimeClass of every enabled state that has one. */
  ghost predicate Attainable(p: Plan, w: World)
    requires Aligned(p)
  {
    && NoneStripped(p, w)
    && (forall i, j :: InPlan(p, i, j) && EnabledAt(p, i) ==>
          var prepared := Prepare(p.c, TemplateAt(p, i, j)); prepared.Built? || prepared.NoSpec?)
    && (forall i :: 0 <= i < |p.resources| && EnabledAt(p, i) && ClassControl in p.controls[i] ==>
          Owned(p.c, p.resources[i].runtimeClass.owner).Some?)
  }

  /** Nothing of state `i` fails or is unavailable. */
  ghost predicate Untroubled(s: Schedule, i: nat) {
    forall site :: s(site) == Tick(Working, 0) || (site.Remove? && site.i != i)
  }

  lemma UntroubledStateFine(p: Plan, i: nat, w: World, s: Schedule)
    requires WellPlanned(p) && i < |p.resources| && Attainable(p, w) && Untroubled(s, i)
    ensures StateFine(p, i, w, s)
  {
    if EnabledAt(p, i) {
      forall j | 0 <= j < |p.resources[i].daemonSets|
        ensures VisitAt(p, i, j, w, s).outcome in {Good, Unmatched}
      {
        assert InPlan(p, i, j) && !Stripped(p, i, j, w);
        UntroubledVisit(p.c, i, j, TemplateAt(p, i, j), Slot(w.daemonSets, KeyAt(p, i, j)), s);
      }
    }
  }

  lemma UntroubledVisit(c: Context, i: nat, j: nat, t: DaemonSet, slot: Option<DaemonSet>, s: Schedule)
    requires Untroubled(s, i) && (Prepare(c, t).Built? || Prepare(c, t).NoSpec?)
    requires Prepare(c, t).Built? && slot.Some? ==> slot.value.annotations.Some?
    ensures Enforce(c, i, j, t, slot, s).outcome in {Good, Unmatched}
  {
    assert forall site: Site :: site.Lookup? || site.Save? || site.Readiness? ==> s(site) == Tick(Working, 0);
    assert s(Remove(i, j)) == Tick(Working, 0);
  }

  /** Some schedule makes the pass report Ready exactly if Ready is attainable. */
  lemma ReadyAttainableIff(c: Context, k: Controller, name: string, wasReady: bool, w: World)
    requires Begins(c, k) && WellPlanned(PlanOf(c, k))
    ensures (exists s: Schedule :: StepsFrom(c, k, name, wasReady, Ready, w, s).ending == Finished(false, false)) <==>
            Attainable(PlanOf(c, k), w)
  {
    var p := PlanOf(c, k);
    if Attainable(p, w) {
      var s: Schedule := (site: Site) => Tick(Working, 0);
      forall i | 0 <= i < |p.resources| ensures StateFine(p, i, w, s) {
        UntroubledStateFine(p, i, w, s);
      }
      ReadyIff(c, k, name, wasReady, w, s);
    }
    if s: Schedule :| StepsFrom(c, k, name, wasReady, Ready, w, s).ending == Finished(false, false) {
      ReadyIsAttainable(c, k, name, wasReady, w, s);
    }
  }

  lemma ReadyIsAttainable(c: Context, k: Controller, name: string, wasReady: bool, w: World, s: Schedule)
    requires Begins(c, k) && WellPlanned(PlanOf(c, k))
    requires StepsFrom(c, k, name, wasReady, Ready, w, s).ending == Finished(false, false)
    ensures Attainable(PlanOf(c, k), w)
  {
    var p := PlanOf(c, k);
    ReadyIff(c, k, name, wasReady, w, s);
    forall i, j | InPlan(p, i, j) && EnabledAt(p, i)
      ensures !Stripped(p, i, j, w) &&
              (Prepare(c, TemplateAt(p, i, j)).Built? || Prepare(c, TemplateAt(p, i, j)).NoSpec?)
    {
      assert StateFine(p, i, w, s);
      assert VisitAt(p, i, j, w, s).outcome in {Good, Unmatched};
    }
    forall i | 0 <= i < |p.resources| && EnabledAt(p, i) && ClassControl in p.controls[i]
      ensures Owned(c, p.resources[i].runtimeClass.owner).Some?
    {
      assert StateFine(p, i, w, s);
      var n :| 0 <= n < |p.controls[i]| && p.controls[i][n] == ClassControl;
    }
  }

  /** A pass can report Ready with a DaemonSet of a disabled state still stored. */
  lemma ReadyDespiteLeftover(c: Context, k: Controller, name: string, wasReady: bool, w: World, i: nat, j: nat)
    requires Begins(c, k) && WellPlanned(PlanOf(c, k)) && InPlan(PlanOf(c, k), i, j) && !EnabledAt(PlanOf(c, k), i)
    requires !Decisive(PlanOf(c, k), i, j) && Attainable(PlanOf(c, k), w)
    ensures var p, r := PlanOf(c, k), StepsFrom(c, k, name, wasReady, Ready, w, RefuseRemoval(i, j));
            r.ending == Finished(false, false) &&
            Slot(r.w.daemonSets, KeyAt(p, i, j)) == Slot(w.daemonSets, KeyAt(p, i, j))
  {
    var p, s := PlanOf(c, k), RefuseRemoval(i, j);
    forall a | 0 <= a < |p.resources| ensures StateFine(p, a, w, s) {
      if a == i {
        FailedCleanupMasked(p, i, j, w);
        DisabledStepFine(p, i, w, s);
      } else {
        UntroubledStateFine(p, a, w, s);
      }
    }
    ReadyIff(c, k, name, wasReady, w, s);
    CompletedVisits(c, k, name, wasReady, w, s, i, j);
  }

  /** Ready is sure to mean that no DaemonSet of a disabled state is left, whatever fails, exactly if each one that
      was stored before is the one its state removes last, or if Ready cannot be reported at all. */
  lemma CleanupIff(c: Context, k: Controller, name: string, wasReady: bool, w: World)
    requires Begins(c, k) && WellPlanned(PlanOf(c, k))
    ensures var p := PlanOf(c, k);
            (forall s: Schedule, i: nat, j: nat ::
               InPlan(p, i, j) && !EnabledAt(p, i) &&
               StepsFrom(c, k, name, wasReady, Ready, w, s).ending == Finished(false, false) ==>
               Slot(StepsFrom(c, k, name, wasReady, Ready, w, s).w.daemonSets, KeyAt(p, i, j)) == None) <==>
            !Attainable(p, w) ||
            (forall i: nat, j: nat ::
               InPlan(p, i, j) && !EnabledAt(p, i) && Slot(w.daemonSets, KeyAt(p, i, j)).Some? ==> Decisive(p, i, j))
  {
    var p := PlanOf(c, k);
    forall s: Schedule, i: nat, j: nat |
      InPlan(p, i, j) && !EnabledAt(p, i) &&
      StepsFrom(c, k, name, wasReady, Ready, w, s).ending == Finished(false, false)
      ensures Attainable(p, w)
      ensures Decisive(p, i, j) || Slot(w.daemonSets, KeyAt(p, i, j)) == None ==>
                Slot(StepsFrom(c, k, name, wasReady, Ready, w, s).w.daemonSets, KeyAt(p, i, j)) == None
    {
      ReadyIsAttainable(c, k, name, wasReady, w, s);
      ReadyIff(c, k, name, wasReady, w, s);
      assert StateFine(p, i, w, s);
      CompletedVisits(c, k, name, wasReady, w, s, i, j);
    }
    if Attainable(p, w) {
      if i: nat, j: nat :|
        InPlan(p, i, j) && !EnabledAt(p, i) && Slot(w.daemonSets, KeyAt(p, i, j)).Some? && !Decisive(p, i, j)
      {
        ReadyDespiteLeftover(c, k, name, wasReady, w, i, j);
        var s := RefuseRemoval(i, j);
        assert Slot(StepsFrom(c, k, name, wasReady, Ready, w, s).w.daemonSets, KeyAt(p, i, j)) != None;
      }
    }
  }
}
