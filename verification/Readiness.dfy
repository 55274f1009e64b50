/** When a pass reports Ready, and what that says about the cluster. */
module Readiness {
  import opened Policy
  import opened Objects
  import opened Cluster
  import opened Enforcement
  import opened SlotLaws
  import opened OutcomeJoin
  import opened Machine
  import opened Pointwise
  import opened Passes

  // ----- folding the answers of the controls of one state

  predicate Speaks(v: Verdict) {
    v.Returned? && v.state != Ready
  }

  /** If at most one control returns a state other than Ready, none can be masked. */
  lemma {:induction false} OneVoice(vs: seq<Verdict>, result: State)
    requires forall a, b :: 0 <= a < b < |vs| ==> !(Speaks(vs[a]) && Speaks(vs[b]))
    requires result == Ready || forall a :: 0 <= a < |vs| ==> !Speaks(vs[a])
    ensures Fine(FoldVerdicts(vs, result)) <==> result != NotReady && forall a :: 0 <= a < |vs| ==> Fine(vs[a])
  {
    if vs != [] {
      assert forall a :: 1 <= a < |vs| ==> vs[a] == vs[1..][a - 1];
      if vs[0].Returned? {
        OneVoice(vs[1..], if vs[0].state != Ready then vs[0].state else result);
      }
    }
  }

  /** If every control returns a state other than Ready, the last one masks all the others. */
  lemma {:induction false} LastVoice(vs: seq<Verdict>, result: State)
    requires forall a :: 0 <= a < |vs| ==> Speaks(vs[a])
    ensures FoldVerdicts(vs, result) == if vs == [] then Returned(result) else vs[|vs| - 1]
  {
    if vs != [] {
      assert forall a :: 1 <= a < |vs| ==> vs[a] == vs[1..][a - 1];
      LastVoice(vs[1..], vs[0].state);
    }
  }

  lemma {:induction false} AllReturned(vs: seq<Verdict>, result: State)
    ensures FoldVerdicts(vs, result).Returned? <==> forall a :: 0 <= a < |vs| ==> vs[a].Returned?
  {
    if vs != [] {
      assert forall a :: 1 <= a < |vs| ==> vs[a] == vs[1..][a - 1];
      if vs[0].Returned? {
        AllReturned(vs[1..], if vs[0].state != Ready then vs[0].state else result);
      }
    }
  }

  lemma VisitKind(c: Context, enabled: bool, i: nat, j: nat, t: DaemonSet, slot: Option<DaemonSet>, s: Schedule)
    ensures var o := Visit(c, enabled, i, j, t, slot, s).outcome;
            if enabled then !o.Retired? && !o.RetireFailed? else o.Retired? || o.RetireFailed?
  {
  }

  lemma OutcomesKind(c: Context, enabled: bool, i: nat, ts: seq<DaemonSet>, w: World, s: Schedule)
    ensures var os := Outcomes(c, enabled, i, ts, w, s); if enabled then OfEnabled(os) else OfDisabled(os)
  {
    var os := Outcomes(c, enabled, i, ts, w, s);
    forall o | o in os
      ensures if enabled then !o.Retired? && !o.RetireFailed? else o.Retired? || o.RetireFailed?
    {
      var j :| 0 <= j < |os| && os[j] == o;
      VisitKind(c, enabled, i, j, ts[j], Slot(w.daemonSets, KeyOf(c, ts[j])), s);
    }
  }

  // ----- an enabled state

  /** The step of an enabled state is fine exactly if every template is served or meant to be left out,
      and every RuntimeClass request works. Nothing is masked. */
  ghost predicate Served(p: Plan, i: nat, w: World, s: Schedule)
    requires Aligned(p) && i < |p.resources|
  {
    && (forall j :: 0 <= j < |p.resources[i].daemonSets| ==> VisitAt(p, i, j, w, s).outcome in {Good, Unmatched})
    && (forall n :: 0 <= n < |p.controls[i]| && p.controls[i][n].ClassControl? ==>
          ClassVerdict(p.c, true, i, n, p.resources[i].runtimeClass, s) == Returned(Ready))
  }

  lemma FineFold(os: seq<Outcome>)
    requires OfEnabled(os)
    ensures Fine(Fold(os, Ready)) <==> forall j :: 0 <= j < |os| ==> os[j] in {Good, Unmatched}
  {
    EnabledJoin(os, Ready);
    forall j | 0 <= j < |os| ensures os[j] in os {}
    if forall j :: 0 <= j < |os| ==> os[j] in {Good, Unmatched} {
      assert Bad !in os && Panicked !in os;
    }
  }

  /** The DaemonSet control answers fine exactly if each template is served or left out. */
  lemma DaemonSetsFine(p: Plan, i: nat, w: World, s: Schedule)
    requires Aligned(p) && i < |p.resources| && EnabledAt(p, i)
    ensures Fine(Fold(Outcomes(p.c, true, i, p.resources[i].daemonSets, w, s), Ready)) <==>
            forall j :: 0 <= j < |p.resources[i].daemonSets| ==> VisitAt(p, i, j, w, s).outcome in {Good, Unmatched}
  {
    var ts := p.resources[i].daemonSets;
    var os := Outcomes(p.c, true, i, ts, w, s);
    OutcomesKind(p.c, true, i, ts, w, s);
    FineFold(os);
    forall j | 0 <= j < |ts| ensures os[j] == VisitAt(p, i, j, w, s).outcome {}
  }

  lemma EnabledStepFine(p: Plan, i: nat, w: World, s: Schedule)
    requires WellPlanned(p) && i < |p.resources| && EnabledAt(p, i)
    ensures Fine(StepVerdict(p, i, w, s)) <==> Served(p, i, w, s)
  {
    var cs, r := p.controls[i], p.resources[i];
    var vs := Verdicts(p.c, true, i, cs, r, w, s);
    OneVoice(vs, Ready);
    DaemonSetsFine(p, i, w, s);
    assert forall n :: 0 <= n < |cs| ==> vs[n] == ControlVerdict(p.c, true, i, n, cs[n], r, w, s);
    if r.daemonSets != [] {
      var m :| 0 <= m < |cs| && cs[m] == DaemonSetControl;
      assert vs[m] == Fold(Outcomes(p.c, true, i, r.daemonSets, w, s), Ready);
    }
  }

  // ----- a disabled state

  /** The removal a disabled state is judged by: the last request of its last control. */
  function LastRemoval(p: Plan, i: nat): Site
    requires WellPlanned(p) && i < |p.resources| && p.controls[i] != []
  {
    var n := |p.controls[i]| - 1;
    if p.controls[i][n].ClassControl? then ClassRemove(i, n)
    else
      assert DaemonSetControl in p.controls[i];
      Remove(i, |p.resources[i].daemonSets| - 1)
  }

  /** The step of a disabled state is fine exactly if its last removal works. */
  lemma DisabledStepFine(p: Plan, i: nat, w: World, s: Schedule)
    requires WellPlanned(p) && i < |p.resources| && !EnabledAt(p, i)
    ensures Fine(StepVerdict(p, i, w, s)) <==> p.controls[i] == [] || s(LastRemoval(p, i)).fault.Working?
    ensures StepVerdict(p, i, w, s).Returned?
  {
    var cs, r := p.controls[i], p.resources[i];
    var vs := Verdicts(p.c, false, i, cs, r, w, s);
    var os := Outcomes(p.c, false, i, r.daemonSets, w, s);
    OutcomesKind(p.c, false, i, r.daemonSets, w, s);
    DisabledLast(os, Ready);
    forall n | 0 <= n < |cs| ensures Speaks(vs[n]) {
      if cs[n].DaemonSetControl? {
        assert DaemonSetControl in cs;
      }
    }
    LastVoice(vs, Ready);
    if cs != [] && cs[|cs| - 1].DaemonSetControl? {
      assert DaemonSetControl in cs;
      assert os[|os| - 1] == VisitNow(p.c, false, i, r.daemonSets, |os| - 1, w, s).outcome;
    }
  }

  // ----- the whole pass

  predicate Begins(c: Context, k: Controller) {
    k.idx == 0 && InRange(k)
  }

  ghost predicate StateFine(p: Plan, i: nat, w: World, s: Schedule)
    requires WellPlanned(p) && i < |p.resources|
  {
    if EnabledAt(p, i) then Served(p, i, w, s)
    else p.controls[i] == [] || s(LastRemoval(p, i)).fault.Working?
  }

  /** A pass reports Ready exactly if every enabled state is served and every disabled state's last
      removal works; any other ending asks for another pass or is a panic. */
  lemma ReadyIff(c: Context, k: Controller, name: string, wasReady: bool, w: World, s: Schedule)
    requires Begins(c, k) && WellPlanned(PlanOf(c, k))
    ensures var p, e := PlanOf(c, k), StepsFrom(c, k, name, wasReady, Ready, w, s).ending;
      && (e == Finished(false, false) <==> forall i :: 0 <= i < |p.resources| ==> StateFine(p, i, w, s))
      && (e == Finished(false, false) || e.Panic? || e.requeue)
  {
    var p := PlanOf(c, k);
    var vs := StepVerdicts(p, w, s);
    PassEnding(c, k, name, wasReady, Ready, w, s, vs);
    EndingFromVerdicts(vs, Ready);
    assert vs[0..] == vs;
    forall i | 0 <= i < |p.resources| ensures Fine(vs[i]) <==> StateFine(p, i, w, s) {
      if EnabledAt(p, i) { EnabledStepFine(p, i, w, s); } else { DisabledStepFine(p, i, w, s); }
    }
  }

  // ----- which steps break off

  /** The visit of the template panics: it has too few containers, or the object found has no annotations. */
  predicate Panics(p: Plan, i: nat, j: nat, w: World, s: Schedule)
    requires Aligned(p) && InPlan(p, i, j)
  {
    EnabledAt(p, i) &&
    var prepared, slot := Prepare(p.c, TemplateAt(p, i, j)), Slot(w.daemonSets, KeyAt(p, i, j));
    prepared.Malformed? ||
    (prepared.Built? && s(Lookup(i, j)).fault.Working? && slot.Some? && slot.value.annotations.None?)
  }

  /** Every RuntimeClass control of an enabled state works that comes before control `n`. */
  ghost predicate ClassesServed(p: Plan, i: nat, n: nat, s: Schedule)
    requires Aligned(p) && i < |p.resources| && n <= |p.controls[i]|
  {
    forall m :: 0 <= m < n && p.controls[i][m].ClassControl? ==>
      ClassVerdict(p.c, true, i, m, p.resources[i].runtimeClass, s) == Returned(Ready)
  }

  ghost predicate Crashes(p: Plan, i: nat, w: World, s: Schedule)
    requires Aligned(p) && i < |p.resources|
  {
    && (exists j :: InPlan(p, i, j) && Panics(p, i, j, w, s))
    && (forall n :: 0 <= n < |p.controls[i]| && p.controls[i][n].DaemonSetControl? ==> ClassesServed(p, i, n, s))
  }

  ghost predicate Returns(p: Plan, i: nat, w: World, s: Schedule)
    requires Aligned(p) && i < |p.resources|
  {
    EnabledAt(p, i) ==>
      (forall j :: InPlan(p, i, j) ==> !Panics(p, i, j, w, s)) && ClassesServed(p, i, |p.controls[i]|, s)
  }

  ghost predicate CrashFrom(vs: seq<Verdict>, from: nat) {
    exists n :: from <= n < |vs| && vs[n].Crashed? && forall m :: from <= m < n ==> vs[m].Returned?
  }

  lemma CrashStep(vs: seq<Verdict>, from: nat)
    requires from < |vs|
    ensures CrashFrom(vs, from) <==> vs[from].Crashed? || (vs[from].Returned? && CrashFrom(vs, from + 1))
  {
    if vs[from].Returned? && CrashFrom(vs, from + 1) {
      var n :| from + 1 <= n < |vs| && vs[n].Crashed? && forall m :: from + 1 <= m < n ==> vs[m].Returned?;
      assert forall m :: from <= m < n ==> vs[m].Returned?;
    }
  }

  lemma {:induction false} FirstCrash(vs: seq<Verdict>, from: nat, result: State)
    requires from <= |vs|
    ensures FoldVerdicts(vs[from..], result).Crashed? <==> CrashFrom(vs, from)
    decreases |vs| - from
  {
    if from < |vs| {
      assert vs[from..][0] == vs[from] && vs[from..][1..] == vs[from + 1..];
      CrashStep(vs, from);
      if vs[from].Returned? {
        FirstCrash(vs, from + 1, if vs[from].state != Ready then vs[from].state else result);
      }
    }
  }

  /** The DaemonSet control of an enabled state panics exactly if one of its visits does, and else returns. */
  lemma DaemonSetsCrash(p: Plan, i: nat, w: World, s: Schedule)
    requires Aligned(p) && i < |p.resources| && EnabledAt(p, i)
    ensures var v := Fold(Outcomes(p.c, true, i, p.resources[i].daemonSets, w, s), Ready);
            (v.Crashed? <==> exists j :: InPlan(p, i, j) && Panics(p, i, j, w, s)) && (v.Crashed? || v.Returned?)
  {
    var ts := p.resources[i].daemonSets;
    var os := Outcomes(p.c, true, i, ts, w, s);
    OutcomesKind(p.c, true, i, ts, w, s);
    EnabledJoin(os, Ready);
    forall j | 0 <= j < |ts| ensures os[j].Panicked? <==> Panics(p, i, j, w, s) {
      PanicIff(p.c, true, i, j, ts[j], Slot(w.daemonSets, KeyOf(p.c, ts[j])), s);
    }
    if Panicked in os {
      var j :| 0 <= j < |os| && os[j] == Panicked;
      assert InPlan(p, i, j) && Panics(p, i, j, w, s);
    }
    if j: nat :| InPlan(p, i, j) && Panics(p, i, j, w, s) {
      assert os[j].Panicked? && os[j] in os;
    }
  }

  /** How a step breaks off, by what is stored and which requests fail. */
  lemma StepEndsIff(p: Plan, i: nat, w: World, s: Schedule)
    requires WellPlanned(p) && i < |p.resources|
    ensures StepVerdict(p, i, w, s).Crashed? <==> Crashes(p, i, w, s)
    ensures StepVerdict(p, i, w, s).Returned? <==> Returns(p, i, w, s)
  {
    var cs, r, e := p.controls[i], p.resources[i], EnabledAt(p, i);
    var vs := Verdicts(p.c, e, i, cs, r, w, s);
    FirstCrash(vs, 0, Ready);
    assert vs[0..] == vs;
    AllReturned(vs, Ready);
    if !e {
      DisabledStepFine(p, i, w, s);
    } else {
      DaemonSetsCrash(p, i, w, s);
      assert forall n :: 0 <= n < |cs| ==> vs[n] == ControlVerdict(p.c, e, i, n, cs[n], r, w, s);
      if j: nat :| InPlan(p, i, j) && Panics(p, i, j, w, s) {
        var d :| 0 <= d < |cs| && cs[d] == DaemonSetControl;
        assert vs[d].Crashed?;
        assert forall m :: 0 <= m < d ==> cs[m].ClassControl?;
      }
    }
  }

  /** For every schedule: a pass runs to its end exactly if no visit of an enabled template panics and every
      RuntimeClass control of an enabled state works; and it panics exactly if the first step to break off does. */
  lemma CompletedIff(c: Context, k: Controller, name: string, wasReady: bool, w: World, s: Schedule)
    requires Begins(c, k) && WellPlanned(PlanOf(c, k))
    ensures var p, e := PlanOf(c, k), StepsFrom(c, k, name, wasReady, Ready, w, s).ending;
      && (Completed(e) <==> forall i :: 0 <= i < |p.resources| ==> Returns(p, i, w, s))
      && (e.Panic? <==>
            exists i :: 0 <= i < |p.resources| && Crashes(p, i, w, s) && forall a :: 0 <= a < i ==> Returns(p, a, w, s))
  {
    var p, e := PlanOf(c, k), StepsFrom(c, k, name, wasReady, Ready, w, s).ending;
    var vs := StepVerdicts(p, w, s);
    PassEnding(c, k, name, wasReady, Ready, w, s, vs);
    EndingFromVerdicts(vs, Ready);
    assert vs[0..] == vs;
    forall i | 0 <= i < |p.resources|
      ensures vs[i].Returned? <==> Returns(p, i, w, s)
      ensures vs[i].Crashed? <==> Crashes(p, i, w, s)
    {
      StepEndsIff(p, i, w, s);
    }
  }

  /** A completed pass visits every template without a panic. */
  lemma CompletedVisits(c: Context, k: Controller, name: string, wasReady: bool, w: World, s: Schedule, i: nat, j: nat)
    requires Begins(c, k) && WellPlanned(PlanOf(c, k)) && InPlan(PlanOf(c, k), i, j)
    requires Completed(StepsFrom(c, k, name, wasReady, Ready, w, s).ending)
    ensures var p := PlanOf(c, k);
            !VisitAt(p, i, j, w, s).outcome.Panicked? &&
            Slot(StepsFrom(c, k, name, wasReady, Ready, w, s).w.daemonSets, KeyAt(p, i, j)) ==
              VisitAt(p, i, j, w, s).slot
  {
    var p := PlanOf(c, k);
    CompletedIff(c, k, name, wasReady, w, s);
    assert Returns(p, i, w, s) && (EnabledAt(p, i) ==> !Panics(p, i, j, w, s));
    PanicIff(c, EnabledAt(p, i), i, j, TemplateAt(p, i, j), Slot(w.daemonSets, KeyAt(p, i, j)), s);
    PassCursor(c, k, name, wasReady, Ready, w, s);
    PassSlot(c, k, name, wasReady, Ready, w, s, i, j);
  }

  // ----- the served states, request by request

  /** The stored object carries the hash of the desired one. */
  predicate UpToDate(stored: DaemonSet, h: string) {
    var a := stored.annotations;
    a.Some? && "xilinx.com/last-applied-hash" in a.value && a.value["xilinx.com/last-applied-hash"] == h
  }

  /** The requests of an enabled template do what is needed. One to be left out is removed. One to be deployed is looked
      up, written if it is missing or out of date, and read back with no pod unavailable. */
  predicate TemplateServed(c: Context, i: nat, j: nat, t: DaemonSet, slot: Option<DaemonSet>, s: Schedule) {
    match Prepare(c, t)
    case NoSpec => s(Remove(i, j)).fault == Working
    case Built(obj) =>
      && s(Lookup(i, j)).fault == Working && s(Readiness(i, j)) == Tick(Working, 0)
      && (slot.Some? ==> slot.value.annotations.Some?)
      && (slot.None? || !UpToDate(slot.value, c.hash(obj)) || !c.caching ==> s(Save(i, j)).fault == Working)
    case _ => false
  }

  /** An enabled state is served exactly if the requests of all its templates do, and for each of its RuntimeClass
      controls the policy may own the class, and its lookup and its write work. */
  lemma ServedIff(p: Plan, i: nat, w: World, s: Schedule)
    requires Aligned(p) && i < |p.resources| && EnabledAt(p, i)
    ensures Served(p, i, w, s) <==>
              && (forall j :: InPlan(p, i, j) ==>
                    TemplateServed(p.c, i, j, TemplateAt(p, i, j), Slot(w.daemonSets, KeyAt(p, i, j)), s))
              && (forall n :: 0 <= n < |p.controls[i]| && p.controls[i][n].ClassControl? ==>
                    var owner := p.resources[i].runtimeClass.owner;
                    && (owner.Some? ==> owner.value.name == p.c.policy.name)
                    && s(ClassLookup(i, n)).fault == Working && s(ClassSave(i, n)).fault == Working)
  {
    forall j | 0 <= j < |p.resources[i].daemonSets|
      ensures VisitAt(p, i, j, w, s).outcome in {Good, Unmatched} <==>
              TemplateServed(p.c, i, j, TemplateAt(p, i, j), Slot(w.daemonSets, KeyAt(p, i, j)), s)
    {
      VisitServedIff(p.c, i, j, TemplateAt(p, i, j), Slot(w.daemonSets, KeyAt(p, i, j)), s);
    }
  }

  lemma VisitServedIff(c: Context, i: nat, j: nat, t: DaemonSet, slot: Option<DaemonSet>, s: Schedule)
    ensures Enforce(c, i, j, t, slot, s).outcome in {Good, Unmatched} <==> TemplateServed(c, i, j, t, slot, s)
  {
  }

  // ----- what Ready says about the cluster

  /** Whatever is stored, a template reported as served was created, updated or found with the desired hash, and
      read back with no pod unavailable; one reported as left out has no spec and was removed. */
  lemma GoodMeans(c: Context, i: nat, j: nat, t: DaemonSet, slot: Option<DaemonSet>, s: Schedule)
    ensures var a, p := Enforce(c, i, j, t, slot, s), Prepare(c, t);
      && (a.outcome == Good ==>
            && p.Built? && s(Readiness(i, j)) == Tick(Working, 0)
            && (a.slot == Some(Stamp(c.hash, p.obj)) ||
                (c.caching && slot.Some? && a.slot == slot && CarriesHash(slot.value, c.hash(p.obj)))))
      && (a.outcome == Unmatched ==> p.NoSpec? && a.slot == None && s(Remove(i, j)).fault.Working?)
  {
  }

  /** The cluster at the end of a pass that reports Ready, seen from what was stored when it began. */
  ghost predicate ReadBack(p: Plan, i: nat, j: nat, w: World, w': World, s: Schedule)
    requires Aligned(p) && InPlan(p, i, j)
  {
    var prepared, key := Prepare(p.c, TemplateAt(p, i, j)), KeyAt(p, i, j);
    var before, now := Slot(w.daemonSets, key), Slot(w'.daemonSets, key);
    if prepared.NoSpec? then now == None && s(Remove(i, j)).fault.Working?
    else
      && prepared.Built? && s(Readiness(i, j)) == Tick(Working, 0)
      && (now == Some(Stamp(p.c.hash, prepared.obj)) ||
          (p.c.caching && before.Some? && now == before && CarriesHash(before.value, p.c.hash(prepared.obj))))
  }

  /** Whatever was stored and whatever failed on the way, Ready means that each template of each enabled state
      was read back with all its pods available, or is rightly absent; and that each RuntimeClass was written. */
  lemma ReadyMeansReadBack(c: Context, k: Controller, name: string, wasReady: bool, w: World, s: Schedule)
    requires Begins(c, k) && WellPlanned(PlanOf(c, k))
    requires StepsFrom(c, k, name, wasReady, Ready, w, s).ending == Finished(false, false)
    ensures var p, w' := PlanOf(c, k), StepsFrom(c, k, name, wasReady, Ready, w, s).w;
      && (forall i, j :: InPlan(p, i, j) && EnabledAt(p, i) ==> ReadBack(p, i, j, w, w', s))
      && (forall i, n ::
            0 <= i < |p.resources| && EnabledAt(p, i) && 0 <= n < |p.controls[i]| && p.controls[i][n].ClassControl? ==>
            s(ClassLookup(i, n)).fault.Working? && s(ClassSave(i, n)).fault.Working?)
  {
    var p, w' := PlanOf(c, k), StepsFrom(c, k, name, wasReady, Ready, w, s).w;
    ReadyIff(c, k, name, wasReady, w, s);
    forall i, j | InPlan(p, i, j) && EnabledAt(p, i) ensures ReadBack(p, i, j, w, w', s) {
      assert StateFine(p, i, w, s);
      CompletedVisits(c, k, name, wasReady, w, s, i, j);
      GoodMeans(c, i, j, TemplateAt(p, i, j), Slot(w.daemonSets, KeyAt(p, i, j)), s);
      assert VisitAt(p, i, j, w, s).outcome in {Good, Unmatched};
    }
    forall i, n |
      0 <= i < |p.resources| && EnabledAt(p, i) && 0 <= n < |p.controls[i]| && p.controls[i][n].ClassControl?
      ensures s(ClassLookup(i, n)).fault.Working? && s(ClassSave(i, n)).fault.Working?
    {
      assert StateFine(p, i, w, s);
    }
  }

  ghost predicate Deployed(p: Plan, i: nat, j: nat, w': World, s: Schedule)
    requires Aligned(p) && InPlan(p, i, j)
  {
    var prepared, now := Prepare(p.c, TemplateAt(p, i, j)), Slot(w'.daemonSets, KeyAt(p, i, j));
    if prepared.NoSpec? then now == None && s(Remove(i, j)).fault.Working?
    else prepared.Built? && now == Some(Stamp(p.c.hash, prepared.obj)) && s(Readiness(i, j)) == Tick(Working, 0)
  }

  ghost predicate Trusted(p: Plan, i: nat, j: nat, w: World)
    requires InPlan(p, i, j)
  {
    TrustedSlot(p.c, TemplateAt(p, i, j), Slot(w.daemonSets, KeyAt(p, i, j)))
  }

  /** Over stored objects with true hashes and no collisions Ready means more: each enabled template is stored
      exactly as the policy asks. */
  lemma ReadyMeansDeployed(c: Context, k: Controller, name: string, wasReady: bool, w: World, s: Schedule)
    requires Begins(c, k) && WellPlanned(PlanOf(c, k))
    requires forall i, j :: InPlan(PlanOf(c, k), i, j) ==> Trusted(PlanOf(c, k), i, j, w)
    requires StepsFrom(c, k, name, wasReady, Ready, w, s).ending == Finished(false, false)
    ensures var p, w' := PlanOf(c, k), StepsFrom(c, k, name, wasReady, Ready, w, s).w;
            forall i, j :: InPlan(p, i, j) && EnabledAt(p, i) ==> Deployed(p, i, j, w', s)
  {
    var p, w' := PlanOf(c, k), StepsFrom(c, k, name, wasReady, Ready, w, s).w;
    ReadyMeansReadBack(c, k, name, wasReady, w, s);
    forall i, j | InPlan(p, i, j) && EnabledAt(p, i)
      ensures Deployed(p, i, j, w', s)
    {
      assert Trusted(p, i, j, w) && ReadBack(p, i, j, w, w', s);
      TrustedNotFooled(c, true, TemplateAt(p, i, j), Slot(w.daemonSets, KeyAt(p, i, j)));
    }
  }
}
