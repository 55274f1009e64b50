/** The hash cache against a reference operator that always writes, and what a pass converges to. */
module Refinement {
  import opened Policy
  import opened Objects
  import opened Cluster
  import opened Enforcement
  import opened SlotLaws
  import opened Machine
  import opened Pointwise
  import opened Passes
  import opened RequestLog
  import opened Readiness

  /** The reference operator: the same, but it writes whether or not the hash says it must. */
  function Reference(c: Context): Context {
    c.(caching := false)
  }

  /** One visit of either operator leaves the same object, whatever fails. They can only differ in
      that the reference's extra write fails. */
  lemma VisitRefines(c: Context, enabled: bool, i: nat, j: nat, t: DaemonSet, slot: Option<DaemonSet>, s: Schedule)
    requires c.caching && TrustedSlot(c, t, slot)
    ensures var fast, slow := Visit(c, enabled, i, j, t, slot, s), Visit(Reference(c), enabled, i, j, t, slot, s);
      && fast.slot == slow.slot
      && (fast.outcome == slow.outcome ||
          (fast.outcome == Good && slow.outcome == Bad && !s(Save(i, j)).fault.Working?))
  {
    assert Prepare(c, t) == Prepare(Reference(c), t);
    TrustedNotFooled(c, enabled, t, slot);
  }

  /** The cache skips the update of a found object exactly if the desired content is what was last applied. */
  lemma SkipIff(c: Context, i: nat, j: nat, t: DaemonSet, applied: DaemonSet, s: Schedule)
    requires c.caching && applied.annotations.Some? && s(Lookup(i, j)).fault.Working?
    requires Prepare(c, t).Built? && NoCollision(c.hash, Stamp(c.hash, applied), Prepare(c, t).obj)
    ensures Enforce(c, i, j, t, Some(Stamp(c.hash, applied)), s).log == [] <==> applied == Prepare(c, t).obj
  {
    assert Stamp(c.hash, applied).annotations.value[HASH_KEY] == c.hash(applied);
  }

  /** Over a whole pass, for every schedule: what is sent about an object that is found is an update to the
      desired content, and it is sent exactly if the pass gets to the template, the object can be read, and the
      desired content is not what was last applied. */
  lemma PassSkipsIff(c: Context, k: Controller, name: string, wasReady: bool, w: World, s: Schedule, i: nat, j: nat,
                     applied: DaemonSet)
    requires c.caching && Begins(c, k) && WellPlanned(PlanOf(c, k)) && InPlan(PlanOf(c, k), i, j) &&
             EnabledAt(PlanOf(c, k), i)
    requires Prepare(c, TemplateAt(PlanOf(c, k), i, j)).Built? && applied.annotations.Some?
    requires Slot(w.daemonSets, KeyAt(PlanOf(c, k), i, j)) == Some(Stamp(c.hash, applied))
    requires NoCollision(c.hash, Stamp(c.hash, applied), Prepare(c, TemplateAt(PlanOf(c, k), i, j)).obj)
    ensures var p, r := PlanOf(c, k), StepsFrom(c, k, name, wasReady, Ready, w, s);
            var key, obj := KeyAt(p, i, j), Prepare(c, TemplateAt(p, i, j)).obj;
      && w.log <= r.w.log
      && forall q :: About(q, key) ==>
           (q in r.w.log[|w.log|..] <==>
              q == UpdateDaemonSet(key, Stamp(c.hash, obj)) && applied != obj &&
              Visited(p, r.controller.idx, i, j, w, s) && s(Lookup(i, j)).fault.Working?)
  {
    var p, r := PlanOf(c, k), StepsFrom(c, k, name, wasReady, Ready, w, s);
    var key, obj := KeyAt(p, i, j), Prepare(c, TemplateAt(p, i, j)).obj;
    PassGrows(c, k, name, wasReady, Ready, w, s);
    FoundLog(c, i, j, TemplateAt(p, i, j), applied, s);
    forall q | About(q, key)
      ensures q in r.w.log[|w.log|..] <==>
                q == UpdateDaemonSet(key, Stamp(c.hash, obj)) && applied != obj &&
                Visited(p, r.controller.idx, i, j, w, s) && s(Lookup(i, j)).fault.Working?
    {
      PassSends(c, k, name, wasReady, Ready, w, s, i, j, q);
    }
  }

  lemma FoundLog(c: Context, i: nat, j: nat, t: DaemonSet, applied: DaemonSet, s: Schedule)
    requires c.caching && applied.annotations.Some? && Prepare(c, t).Built?
    requires NoCollision(c.hash, Stamp(c.hash, applied), Prepare(c, t).obj)
    ensures var obj := Prepare(c, t).obj;
            Visit(c, true, i, j, t, Some(Stamp(c.hash, applied)), s).log ==
            if s(Lookup(i, j)).fault.Working? && applied != obj then [UpdateDaemonSet(KeyOf(c, t), Stamp(c.hash, obj))]
            else []
  {
    if s(Lookup(i, j)).fault.Working? {
      SkipIff(c, i, j, t, applied, s);
    }
  }

  ghost predicate TrustedFrom(c: Context, ts: seq<DaemonSet>, from: nat, w: World) {
    forall j :: from <= j < |ts| ==> TrustedSlot(c, ts[j], Slot(w.daemonSets, KeyOf(c, ts[j])))
  }

  /** Storing one template's object leaves the objects of the later ones as trusted as they were. */
  lemma TrustStays(c: Context, ts: seq<DaemonSet>, j: nat, a: Attempt, w: World)
    requires j < |ts| && DistinctNames(ts) && TrustedFrom(c, ts, j, w)
    ensures TrustedFrom(c, ts, j + 1, Record(w, KeyOf(c, ts[j]), a))
  {
  }

  ghost predicate SameEnd(a: Verdict, b: Verdict) {
    (a.Crashed? <==> b.Crashed?) && (a.Failed? <==> b.Failed?)
  }

  lemma {:induction false} DaemonSetsRefine(c: Context, enabled: bool, i: nat, ts: seq<DaemonSet>, j: nat,
                                            r1: State, r2: State, w1: World, w2: World, s: Schedule)
    requires c.caching && j <= |ts| && DistinctNames(ts)
    requires w1.daemonSets == w2.daemonSets && TrustedFrom(c, ts, j, w1)
    ensures var fast := DaemonSetsFrom(c, enabled, i, ts, j, r1, w1, s);
            var slow := DaemonSetsFrom(Reference(c), enabled, i, ts, j, r2, w2, s);
            fast.w.daemonSets == slow.w.daemonSets && SameEnd(fast.verdict, slow.verdict)
    decreases |ts| - j
  {
    if j < |ts| {
      var slot := Slot(w1.daemonSets, KeyOf(c, ts[j]));
      VisitRefines(c, enabled, i, j, ts[j], slot, s);
      var a1 := Visit(c, enabled, i, j, ts[j], slot, s);
      var a2 := Visit(Reference(c), enabled, i, j, ts[j], slot, s);
      if !a1.outcome.Panicked? {
        TrustStays(c, ts, j, a1, w1);
        DaemonSetsRefine(c, enabled, i, ts, j + 1, Merge(r1, a1.outcome), Merge(r2, a2.outcome),
                         Record(w1, KeyOf(c, ts[j]), a1), Record(w2, KeyOf(c, ts[j]), a2), s);
      }
    }
  }

  lemma ControlRefines(c: Context, enabled: bool, i: nat, n: nat, control: Control, r: Resources, w1: World,
                       w2: World, s: Schedule)
    requires c.caching && DistinctNames(r.daemonSets)
    requires w1.daemonSets == w2.daemonSets && w1.classes == w2.classes
    requires control.DaemonSetControl? ==> TrustedFrom(c, r.daemonSets, 0, w1)
    ensures var fast := RunControl(c, enabled, i, n, control, r, w1, s);
            var slow := RunControl(Reference(c), enabled, i, n, control, r, w2, s);
      && fast.w.daemonSets == slow.w.daemonSets && fast.w.classes == slow.w.classes
      && SameEnd(fast.verdict, slow.verdict)
      && (control.ClassControl? ==> fast.w.daemonSets == w1.daemonSets)
  {
    match control {
      case DaemonSetControl =>
        DaemonSetsRefine(c, enabled, i, r.daemonSets, 0, Ready, Ready, w1, w2, s);
        DaemonSetsFrame(c, enabled, i, r.daemonSets, 0, Ready, w1, s);
        DaemonSetsFrame(Reference(c), enabled, i, r.daemonSets, 0, Ready, w2, s);
      case ClassControl =>
    }
  }

  lemma {:induction false} ControlsRefine(c: Context, enabled: bool, i: nat, n: nat, controls: seq<Control>,
                                          r: Resources, r1: State, r2: State, w1: World, w2: World, s: Schedule)
    requires c.caching && n <= |controls| && Once(controls, r) && DistinctNames(r.daemonSets)
    requires w1.daemonSets == w2.daemonSets && w1.classes == w2.classes
    requires DaemonSetControl in controls[n..] ==> TrustedFrom(c, r.daemonSets, 0, w1)
    ensures var fast := ControlsFrom(c, enabled, i, n, controls, r, r1, w1, s);
            var slow := ControlsFrom(Reference(c), enabled, i, n, controls, r, r2, w2, s);
            fast.w.daemonSets == slow.w.daemonSets && fast.w.classes == slow.w.classes &&
            SameEnd(fast.verdict, slow.verdict)
    decreases |controls| - n
  {
    if n < |controls| {
      var o1 := RunControl(c, enabled, i, n, controls[n], r, w1, s);
      var o2 := RunControl(Reference(c), enabled, i, n, controls[n], r, w2, s);
      assert controls[n..] == [controls[n]] + controls[n + 1..];
      ControlRefines(c, enabled, i, n, controls[n], r, w1, w2, s);
      if o1.verdict.Returned? {
        ControlsRefine(c, enabled, i, n + 1, controls, r,
                       if o1.verdict.state != Ready then o1.verdict.state else r1,
                       if o2.verdict.state != Ready then o2.verdict.state else r2, o1.w, o2.w, s);
      }
    }
  }

  ghost predicate TrustedPlan(p: Plan, from: nat, w: World) {
    forall i :: from <= i < |p.resources| ==> TrustedFrom(p.c, p.resources[i].daemonSets, 0, w)
  }

  lemma StepRefines(c: Context, k: Controller, name: string, ready1: bool, ready2: bool, w1: World, w2: World,
                    s: Schedule)
    requires c.caching && InRange(k) && WellPlanned(PlanOf(c, k))
    requires w1.daemonSets == w2.daemonSets && w1.classes == w2.classes && TrustedPlan(PlanOf(c, k), k.idx, w1)
    ensures SameEnd(Step(c, k, w1, s).verdict, Step(Reference(c), k, w2, s).verdict)
    ensures AfterStep(c, k, name, ready1, w1, s).daemonSets ==
            AfterStep(Reference(c), k, name, ready2, w2, s).daemonSets
    ensures AfterStep(c, k, name, ready1, w1, s).classes == AfterStep(Reference(c), k, name, ready2, w2, s).classes
  {
    var p := PlanOf(c, k);
    ControlsRefine(c, EnabledAt(p, k.idx), k.idx, 0, p.controls[k.idx], p.resources[k.idx], Ready, Ready, w1, w2, s);
    AfterStepFrame(c, k, name, ready1, w1, s);
    AfterStepFrame(Reference(c), k, name, ready2, w2, s);
  }

  /** For every schedule of failures the caching pass and the reference pass leave the same DaemonSets
      and RuntimeClasses and break off together, in the same state. */
  lemma {:induction false} PassRefines(c: Context, k: Controller, name: string, ready1: bool, ready2: bool,
                                       overall1: State, overall2: State, w1: World, w2: World, s: Schedule)
    requires c.caching && InRange(k) && WellPlanned(PlanOf(c, k))
    requires w1.daemonSets == w2.daemonSets && w1.classes == w2.classes && TrustedPlan(PlanOf(c, k), k.idx, w1)
    ensures var fast := StepsFrom(c, k, name, ready1, overall1, w1, s);
            var slow := StepsFrom(Reference(c), k, name, ready2, overall2, w2, s);
      && fast.w.daemonSets == slow.w.daemonSets && fast.w.classes == slow.w.classes
      && fast.controller == slow.controller
      && (Completed(fast.ending) <==> Completed(slow.ending)) && (fast.ending.Panic? <==> slow.ending.Panic?)
    decreases |k.controlFuncs| - k.idx
  {
    var o1, o2 := Step(c, k, w1, s), Step(Reference(c), k, w2, s);
    var v1, v2 := AfterStep(c, k, name, ready1, w1, s), AfterStep(Reference(c), k, name, ready2, w2, s);
    StepRefines(c, k, name, ready1, ready2, w1, w2, s);
    if o1.verdict.Returned? {
      var k' := k.(idx := k.idx + 1);
      var overall1', overall2' := Overall(overall1, o1.verdict.state), Overall(overall2, o2.verdict.state);
      if k'.idx != |k'.controlFuncs| {
        TrustCarriesOver(c, k, name, ready1, w1, s);
        PassRefines(c, k', name, ready1, ready2, overall1', overall2', v1, v2, s);
      } else {
        ConcludeFrame(k', name, overall1', v1, s);
        ConcludeFrame(k', name, overall2', v2, s);
      }
    }
  }

  lemma ConcludeFrame(k: Controller, name: string, overall: State, w: World, s: Schedule)
    ensures var r := Conclude(k, name, overall, w, s);
            r.w.daemonSets == w.daemonSets && r.w.classes == w.classes && r.controller == k && Completed(r.ending)
  {
  }

  lemma TrustCarriesOver(c: Context, k: Controller, name: string, wasReady: bool, w: World, s: Schedule)
    requires InRange(k) && WellPlanned(PlanOf(c, k)) && TrustedPlan(PlanOf(c, k), k.idx, w)
    ensures TrustedPlan(PlanOf(c, k), k.idx + 1, AfterStep(c, k, name, wasReady, w, s))
  {
    var p, w' := PlanOf(c, k), AfterStep(c, k, name, wasReady, w, s);
    forall i | k.idx + 1 <= i < |p.resources|
      ensures TrustedFrom(c, p.resources[i].daemonSets, 0, w')
    {
      LaterSteps(c, k, name, wasReady, w, s, i);
      forall j | 0 <= j < |p.resources[i].daemonSets|
        ensures Slot(w'.daemonSets, KeyOf(c, p.resources[i].daemonSets[j])) ==
                Slot(w.daemonSets, KeyOf(c, p.resources[i].daemonSets[j]))
      {
        assert KeyAt(p, i, j) == KeyOf(c, p.resources[i].daemonSets[j]);
      }
    }
  }

  /** Skipping updates never costs Ready: whenever the reference pass reports it, so does the caching pass. */
  lemma CachingNeverWorse(c: Context, k: Controller, name: string, ready1: bool, ready2: bool, w: World, s: Schedule)
    requires c.caching && Begins(c, k) && WellPlanned(PlanOf(c, k)) && TrustedPlan(PlanOf(c, k), 0, w)
    requires StepsFrom(Reference(c), k, name, ready2, Ready, w, s).ending == Finished(false, false)
    ensures StepsFrom(c, k, name, ready1, Ready, w, s).ending == Finished(false, false)
  {
    var p, p' := PlanOf(c, k), PlanOf(Reference(c), k);
    ReadyIff(c, k, name, ready1, w, s);
    ReadyIff(Reference(c), k, name, ready2, w, s);
    forall i | 0 <= i < |p.resources| ensures StateFine(p, i, w, s) {
      assert StateFine(p', i, w, s);
      if EnabledAt(p, i) {
        forall j | 0 <= j < |p.resources[i].daemonSets|
          ensures VisitAt(p, i, j, w, s).outcome in {Good, Unmatched}
        {
          var t := TemplateAt(p, i, j);
          assert TrustedFrom(c, p.resources[i].daemonSets, 0, w);
          VisitRefines(c, true, i, j, t, Slot(w.daemonSets, KeyOf(c, t)), s);
          assert VisitAt(p', i, j, w, s).outcome in {Good, Unmatched};
        }
        assert forall n :: ClassVerdict(c, true, i, n, p.resources[i].runtimeClass, s) ==
                           ClassVerdict(Reference(c), true, i, n, p.resources[i].runtimeClass, s);
      }
    }
  }
}
