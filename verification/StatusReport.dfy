/** The state a pass leaves on the policy. */
module StatusReport {
  import opened Policy
  import opened Cluster
  import opened Enforcement
  import opened Machine
  import opened Passes
  import opened Pointwise
  import opened Ledger
  import opened RequestLog
  import opened Readiness
  import opened Convergence

  /** A status update at site `i` reaches the store: it is read and its write takes effect. */
  predicate Effective(s: Schedule, i: nat) {
    s(StatusRead(i)).fault.Working? && !s(StatusWrite(i)).fault.Refused?
  }

  /** The answer of a step makes the pass write NotReady. */
  predicate Demotes(v: Verdict, wasReady: bool) {
    v.Failed? || (wasReady && v == Returned(NotReady))
  }

  /** Some step that runs demotes the policy, and the write takes effect. */
  ghost predicate Demoted(vs: seq<Verdict>, from: nat, wasReady: bool, s: Schedule) {
    exists i :: from <= i < |vs| && (forall a :: from <= a < i ==> vs[a].Returned?) && Demotes(vs[i], wasReady) &&
      Effective(s, i)
  }

  lemma DemotedStep(vs: seq<Verdict>, from: nat, wasReady: bool, s: Schedule)
    requires from < |vs|
    ensures Demoted(vs, from, wasReady, s) <==>
            (Demotes(vs[from], wasReady) && Effective(s, from)) ||
            (vs[from].Returned? && Demoted(vs, from + 1, wasReady, s))
  {
    if vs[from].Returned? && Demoted(vs, from + 1, wasReady, s) {
      var i :| from + 1 <= i < |vs| && (forall a :: from + 1 <= a < i ==> vs[a].Returned?) &&
          Demotes(vs[i], wasReady) && Effective(s, i);
      assert forall a :: from <= a < i ==> vs[a].Returned?;
    }
  }

  lemma UpdateStateResult(w: World, i: nat, name: string, state: State, namespace: string, s: Schedule)
    requires name in w.policies
    ensures var w' := UpdateState(w, i, name, state, namespace, s);
            name in w'.policies &&
            w'.policies[name].status.state == if Effective(s, i) then state else w.policies[name].status.state
  {
  }

  /** What the step at the cursor does to the stored state. */
  lemma AfterStepState(c: Context, k: Controller, name: string, wasReady: bool, w: World, s: Schedule)
    requires InRange(k) && WellPlanned(PlanOf(c, k)) && name in w.policies
    ensures var v, w' := StepVerdict(PlanOf(c, k), k.idx, w, s), AfterStep(c, k, name, wasReady, w, s);
      && Step(c, k, w, s).verdict == v
      && name in w'.policies
      && w'.policies[name].status.state ==
           if Demotes(v, wasReady) && Effective(s, k.idx) then NotReady else w.policies[name].status.state
  {
    StepFrame(PlanOf(c, k), k.idx, w, s);
    UpdateStateResult(Step(c, k, w, s).w, k.idx, name, NotReady, k.namespace, s);
  }

  lemma ConcludeState(k: Controller, name: string, overall: State, w: World, s: Schedule)
    requires name in w.policies
    ensures var r := Conclude(k, name, overall, w, s);
      && name in r.w.policies
      && r.w.policies[name].status.state ==
           if r.ending == Finished(false, false) && Effective(s, k.idx) then Ready else w.policies[name].status.state
  {
    UpdateStateResult(w, k.idx, name, Ready, k.namespace, s);
  }

  /** The stored state after a pass, for every schedule of failures: Ready if the pass ends well and its promotion
      reaches the store, else NotReady if a demotion does, else what it was. */
  lemma {:induction false} StoredStateExact(c: Context, k: Controller, name: string, wasReady: bool, overall: State,
                                            w: World, s: Schedule, vs: seq<Verdict>)
    requires InRange(k) && WellPlanned(PlanOf(c, k)) && name in w.policies && |vs| == |k.resources|
    requires forall i :: k.idx <= i < |vs| ==> vs[i] == StepVerdict(PlanOf(c, k), i, w, s)
    ensures var r := StepsFrom(c, k, name, wasReady, overall, w, s);
      && name in r.w.policies
      && r.w.policies[name].status.state ==
           if r.ending == Finished(false, false) && Effective(s, |vs|) then Ready
           else if Demoted(vs, k.idx, wasReady, s) then NotReady
           else w.policies[name].status.state
    decreases |k.controlFuncs| - k.idx
  {
    var p, o, w' := PlanOf(c, k), Step(c, k, w, s), AfterStep(c, k, name, wasReady, w, s);
    AfterStepState(c, k, name, wasReady, w, s);
    if o.verdict.Returned? && k.idx + 1 != |k.controlFuncs| {
      DemotedStep(vs, k.idx, wasReady, s);
      forall i | k.idx < i < |vs| ensures vs[i] == StepVerdict(p, i, w', s) {
        LaterSteps(c, k, name, wasReady, w, s, i);
      }
      StoredStateExact(c, k.(idx := k.idx + 1), name, wasReady, Overall(overall, o.verdict.state), w', s, vs);
    } else {
      LastStoredState(c, k, name, wasReady, overall, w, s, vs);
    }
  }

  lemma LastStoredState(c: Context, k: Controller, name: string, wasReady: bool, overall: State, w: World,
                        s: Schedule, vs: seq<Verdict>)
    requires InRange(k) && WellPlanned(PlanOf(c, k)) && name in w.policies && |vs| == |k.resources|
    requires vs[k.idx] == StepVerdict(PlanOf(c, k), k.idx, w, s) && (vs[k.idx].Returned? ==> k.idx + 1 == |vs|)
    ensures var r := StepsFrom(c, k, name, wasReady, overall, w, s);
      && name in r.w.policies
      && r.w.policies[name].status.state ==
           if r.ending == Finished(false, false) && Effective(s, |vs|) then Ready
           else if Demoted(vs, k.idx, wasReady, s) then NotReady
           else w.policies[name].status.state
  {
    AfterStepState(c, k, name, wasReady, w, s);
    DemotedStep(vs, k.idx, wasReady, s);
    if vs[k.idx].Returned? {
      ConcludeState(k.(idx := k.idx + 1), name, Overall(overall, vs[k.idx].state),
                    AfterStep(c, k, name, wasReady, w, s), s);
    }
  }

  /** From step `from` on none is found wanting: all are fine, or all are up to one that panics. */
  ghost predicate Undisturbed(vs: seq<Verdict>, from: nat) {
    || (forall i :: from <= i < |vs| ==> Fine(vs[i]))
    || (exists i :: from <= i < |vs| && vs[i].Crashed? && forall a :: from <= a < i ==> Fine(vs[a]))
  }

  lemma UndisturbedStep(vs: seq<Verdict>, from: nat)
    requires from < |vs|
    ensures Undisturbed(vs, from) <==> vs[from].Crashed? || (Fine(vs[from]) && Undisturbed(vs, from + 1))
  {
    if i :| from <= i < |vs| && vs[i].Crashed? && forall a :: from <= a < i ==> Fine(vs[a]) {
      assert i == from || (from + 1 <= i && forall a :: from + 1 <= a < i ==> Fine(vs[a]));
    }
    if Fine(vs[from]) {
      if i :| from + 1 <= i < |vs| && vs[i].Crashed? && forall a :: from + 1 <= a < i ==> Fine(vs[a]) {
        assert forall a :: from <= a < i ==> Fine(vs[a]);
      }
    }
  }

  /** With working status requests a policy that was Ready is demoted exactly if a step is found wanting. */
  lemma {:induction false} DemotedIff(vs: seq<Verdict>, from: nat, s: Schedule)
    requires from <= |vs| && forall i :: Effective(s, i)
    ensures Demoted(vs, from, true, s) <==> !Undisturbed(vs, from)
    decreases |vs| - from
  {
    if from < |vs| {
      DemotedStep(vs, from, true, s);
      UndisturbedStep(vs, from);
      DemotedIff(vs, from + 1, s);
      assert Effective(s, from);
    }
  }

  /** With working status requests the state a pass leaves: Ready if every state is fine; else NotReady if a step
      that runs fails, or if the policy was Ready and a step that runs is not ready; else the state it found. */
  lemma ReportedState(c: Context, k: Controller, name: string, w: World, s: Schedule)
    requires Begins(c, k) && WellPlanned(PlanOf(c, k)) && name in w.policies
    requires forall i :: Effective(s, i)
    ensures var p, was := PlanOf(c, k), w.policies[name].status.state;
            var r, vs := StepsFrom(c, k, name, was == Ready, Ready, w, s), StepVerdicts(p, w, s);
      && name in r.w.policies
      && r.w.policies[name].status.state ==
           if forall i :: 0 <= i < |p.resources| ==> StateFine(p, i, w, s) then Ready
           else if exists i ::
             Reached(vs, i) && (vs[i].Failed? || (was == Ready && vs[i] == Returned(NotReady))) then NotReady
           else was
  {
    var p, was := PlanOf(c, k), w.policies[name].status.state;
    var vs := StepVerdicts(p, w, s);
    StoredStateExact(c, k, name, was == Ready, Ready, w, s, vs);
    ReadyIff(c, k, name, was == Ready, w, s);
    assert Effective(s, |vs|);
    if Demoted(vs, 0, was == Ready, s) {
      var i :| 0 <= i < |vs| && (forall a :: 0 <= a < i ==> vs[a].Returned?) && Demotes(vs[i], was == Ready) &&
        Effective(s, i);
      assert Reached(vs, i);
    }
    if i :| Reached(vs, i) && (vs[i].Failed? || (was == Ready && vs[i] == Returned(NotReady))) {
      assert Effective(s, i) && Demotes(vs[i], was == Ready);
    }
  }

  /** Step `i` runs: all steps before it return. */
  predicate Reached(vs: seq<Verdict>, i: int) {
    0 <= i < |vs| && forall a :: 0 <= a < i ==> vs[a].Returned?
  }

  /** With working status requests, and whatever else fails, the stored state after a pass is Ready exactly if every
      state is fine, or it was Ready before and the pass panicked with every state fine up to there. A pass that
      leaves another state asks to be run again or panics. */
  lemma StatusAgreement(c: Context, k: Controller, name: string, w: World, s: Schedule)
    requires Begins(c, k) && WellPlanned(PlanOf(c, k)) && name in w.policies
    requires forall i :: Effective(s, i)
    ensures var p, wasReady := PlanOf(c, k), w.policies[name].status.state == Ready;
            var r := StepsFrom(c, k, name, wasReady, Ready, w, s);
      && name in r.w.policies
      && (r.w.policies[name].status.state == Ready <==>
            || (forall i :: 0 <= i < |p.resources| ==> StateFine(p, i, w, s))
            || (wasReady && exists i ::
                  0 <= i < |p.resources| && Crashes(p, i, w, s) && forall a :: 0 <= a < i ==> StateFine(p, a, w, s)))
      && (r.w.policies[name].status.state != Ready ==> r.ending.Panic? || r.ending.requeue)
  {
    var p := PlanOf(c, k);
    var wasReady := w.policies[name].status.state == Ready;
    var vs := StepVerdicts(p, w, s);
    StoredStateExact(c, k, name, wasReady, Ready, w, s, vs);
    ReadyIff(c, k, name, wasReady, w, s);
    DemotedIff(vs, 0, s);
    assert Effective(s, |vs|);
    StateFineIff(p, w, s);
  }

  /** What a step answers, by what is stored and which requests fail. */
  lemma StateFineIff(p: Plan, w: World, s: Schedule)
    requires WellPlanned(p)
    ensures var vs := StepVerdicts(p, w, s);
            forall i :: 0 <= i < |p.resources| ==>
              (Fine(vs[i]) <==> StateFine(p, i, w, s)) && (vs[i].Crashed? <==> Crashes(p, i, w, s))
  {
    forall i | 0 <= i < |p.resources|
      ensures Fine(StepVerdict(p, i, w, s)) <==> StateFine(p, i, w, s)
      ensures StepVerdict(p, i, w, s).Crashed? <==> Crashes(p, i, w, s)
    {
      StepEndsIff(p, i, w, s);
      if EnabledAt(p, i) { EnabledStepFine(p, i, w, s); } else { DisabledStepFine(p, i, w, s); }
    }
  }

  /** Over stored objects with true hashes the stored state is Ready exactly if every state is fine, and every pass
      that leaves another asks to be run again. */
  lemma StatusAgreesOverTrueHashes(c: Context, k: Controller, name: string, w: World, s: Schedule)
    requires Begins(c, k) && WellPlanned(PlanOf(c, k)) && name in w.policies
    requires Servable(PlanOf(c, k)) && StampedPlan(PlanOf(c, k), w)
    requires forall i :: Effective(s, i)
    ensures var p, r := PlanOf(c, k), StepsFrom(c, k, name, w.policies[name].status.state == Ready, Ready, w, s);
      && name in r.w.policies
      && (r.w.policies[name].status.state == Ready <==> forall i :: 0 <= i < |p.resources| ==> StateFine(p, i, w, s))
      && (r.w.policies[name].status.state != Ready ==> r.ending.Finished? && r.ending.requeue)
  {
    var p := PlanOf(c, k);
    var wasReady := w.policies[name].status.state == Ready;
    StatusAgreement(c, k, name, w, s);
    StampedNeverPanics(c, k, name, wasReady, w, s);
    StampedNotStripped(p, w);
    forall i, j | InPlan(p, i, j) ensures !Panics(p, i, j, w, s) {
      assert !Stripped(p, i, j, w);
    }
  }

  /** A promotion that does not reach the store is lost: the pass reports success, asks for no further
      pass, and the policy keeps its old state. */
  lemma LostPromotion(c: Context, k: Controller, name: string, w: World, s: Schedule)
    requires Begins(c, k) && WellPlanned(PlanOf(c, k)) && name in w.policies && w.policies[name].status.state != Ready
    requires forall i :: 0 <= i < |k.resources| ==> StateFine(PlanOf(c, k), i, w, s)
    requires !Effective(s, |k.resources|)
    ensures var r := StepsFrom(c, k, name, false, Ready, w, s);
            r.ending == Finished(false, false) && name in r.w.policies && r.w.policies[name].status.state != Ready
  {
    ReadyIff(c, k, name, false, w, s);
    StoredStateExact(c, k, name, false, Ready, w, s, StepVerdicts(PlanOf(c, k), w, s));
  }

  // ----- no needless status writes

  const NO_STATUS_WRITES: Rule := (r: Request) => !r.PutStatus?

  lemma StepsWriteNoStatus(p: Plan, i: nat, w: World, s: Schedule)
    requires WellPlanned(p) && i < |p.resources|
    ensures var w' := StepAt(p, i, w, s).w; w.log <= w'.log && AllFrom(w'.log, |w.log|, NO_STATUS_WRITES)
  {
    forall a | i <= a < |p.resources|
      ensures VisitsObey(p.c, EnabledAt(p, a), a, p.resources[a].daemonSets, 0, w, s, NO_STATUS_WRITES)
    {
      forall j | 0 <= j < |p.resources[a].daemonSets|
        ensures AllFrom(VisitNow(p.c, EnabledAt(p, a), a, p.resources[a].daemonSets, j, w, s).log, 0, NO_STATUS_WRITES)
      {
        VisitLog(p.c, EnabledAt(p, a), a, j, TemplateAt(p, a, j), Slot(w.daemonSets, KeyAt(p, a, j)), s);
      }
    }
    StepLog(p, i, w, s, |w.log|, NO_STATUS_WRITES);
  }

  /** A pass that finds a Ready policy and every state fine writes no status. */
  lemma {:induction false} SteadyStatus(c: Context, k: Controller, name: string, wasReady: bool, w: World, s: Schedule,
                                        vs: seq<Verdict>)
    requires InRange(k) && WellPlanned(PlanOf(c, k)) && |vs| == |k.resources|
    requires name in w.policies && w.policies[name].status.state == Ready
    requires forall i :: k.idx <= i < |vs| ==> vs[i] == StepVerdict(PlanOf(c, k), i, w, s) && Fine(vs[i])
    ensures var r := StepsFrom(c, k, name, wasReady, Ready, w, s);
            w.log <= r.w.log && AllFrom(r.w.log, |w.log|, NO_STATUS_WRITES)
    decreases |k.controlFuncs| - k.idx
  {
    var p, o, w' := PlanOf(c, k), Step(c, k, w, s), AfterStep(c, k, name, wasReady, w, s);
    StepFrame(p, k.idx, w, s);
    StepsWriteNoStatus(p, k.idx, w, s);
    assert w' == o.w && o.verdict == vs[k.idx];
    if k.idx + 1 != |k.controlFuncs| {
      forall i | k.idx < i < |vs| ensures vs[i] == StepVerdict(p, i, w', s) {
        LaterSteps(c, k, name, wasReady, w, s, i);
      }
      SteadyStatus(c, k.(idx := k.idx + 1), name, wasReady, w', s, vs);
    }
  }

  /** So a Ready policy whose states stay fine keeps its status without another write. */
  lemma ReadyStaysUnwritten(c: Context, k: Controller, name: string, w: World, s: Schedule)
    requires Begins(c, k) && WellPlanned(PlanOf(c, k))
    requires name in w.policies && w.policies[name].status.state == Ready
    requires forall i :: 0 <= i < |k.resources| ==> StateFine(PlanOf(c, k), i, w, s)
    ensures var r := StepsFrom(c, k, name, true, Ready, w, s);
            w.log <= r.w.log && AllFrom(r.w.log, |w.log|, NO_STATUS_WRITES)
  {
    StateFineIff(PlanOf(c, k), w, s);
    SteadyStatus(c, k, name, true, w, s, StepVerdicts(PlanOf(c, k), w, s));
  }
}
