/** The RuntimeClass a pass leaves. */
module Classes {
  import opened Policy
  import opened Objects
  import opened Cluster
  import opened Enforcement
  import opened Machine
  import opened Pointwise
  import opened Passes

  function WantedClass(c: Context, enabled: bool, t: RuntimeClass): Option<RuntimeClass> {
    if enabled then Some(DesiredClass(c, t)) else None
  }

  /** The request of a RuntimeClass control worked. */
  predicate ClassWorked(c: Context, enabled: bool, i: nat, n: nat, t: RuntimeClass, s: Schedule) {
    ClassVerdict(c, enabled, i, n, t, s) == Returned(if enabled then Ready else Disabled)
  }

  function ClassSlot(c: Context, w: World): Option<RuntimeClass> {
    Slot(w.classes, RuntimeClassName(c.policy.spec))
  }

  /** Only the class named by the policy may change: the one of an earlier name stays behind. */
  ghost predicate OtherClassesKept(c: Context, w: World, w': World) {
    forall n :: n != RuntimeClassName(c.policy.spec) ==> Slot(w'.classes, n) == Slot(w.classes, n)
  }

  /** From `w` to `w'` the class is kept or becomes `want`, and once wanted it stays. */
  ghost predicate Towards(c: Context, want: Option<RuntimeClass>, w: World, w': World) {
    && OtherClassesKept(c, w, w')
    && (ClassSlot(c, w') == want || ClassSlot(c, w') == ClassSlot(c, w))
  }

  lemma ClassStep(c: Context, enabled: bool, i: nat, n: nat, t: RuntimeClass, w: World, s: Schedule)
    ensures var w' := ApplyClass(c, enabled, i, n, t, w, s).w;
            Towards(c, WantedClass(c, enabled, t), w, w') &&
            (ClassWorked(c, enabled, i, n, t, s) ==> ClassSlot(c, w') == WantedClass(c, enabled, t))
  {
  }

  lemma DaemonSetsKeepClasses(c: Context, enabled: bool, i: nat, ts: seq<DaemonSet>, j: nat, result: State,
                              w: World, s: Schedule)
    requires j <= |ts|
    ensures DaemonSetsFrom(c, enabled, i, ts, j, result, w, s).w.classes == w.classes
  {
    DaemonSetsFrame(c, enabled, i, ts, j, result, w, s);
  }

  ghost predicate ClassesWork(c: Context, enabled: bool, i: nat, from: nat, controls: seq<Control>, t: RuntimeClass,
                              s: Schedule) {
    forall n :: from <= n < |controls| && controls[n].ClassControl? ==> ClassWorked(c, enabled, i, n, t, s)
  }

  lemma {:induction false} ControlsClass(c: Context, enabled: bool, i: nat, n: nat, controls: seq<Control>,
                                         r: Resources, result: State, w: World, s: Schedule,
                                         want: Option<RuntimeClass>)
    requires n <= |controls|
    requires ClassControl in controls[n..] ==> WantedClass(c, enabled, r.runtimeClass) == want
    ensures var o := ControlsFrom(c, enabled, i, n, controls, r, result, w, s);
      && Towards(c, want, w, o.w)
      && (o.verdict.Returned? && ClassControl in controls[n..] &&
          ClassesWork(c, enabled, i, n, controls, r.runtimeClass, s) ==>
            ClassSlot(c, o.w) == want)
    decreases |controls| - n
  {
    if n < |controls| {
      var o := RunControl(c, enabled, i, n, controls[n], r, w, s);
      assert controls[n..] == [controls[n]] + controls[n + 1..];
      match controls[n] {
        case DaemonSetControl => DaemonSetsKeepClasses(c, enabled, i, r.daemonSets, 0, Ready, w, s);
        case ClassControl => ClassStep(c, enabled, i, n, r.runtimeClass, w, s);
      }
      assert Towards(c, want, w, o.w);
      if o.verdict.Returned? {
        ControlsClass(c, enabled, i, n + 1, controls, r,
                      if o.verdict.state != Ready then o.verdict.state else result, o.w, s, want);
      }
    }
  }

  /** All RuntimeClass controls of the plan want the same. */
  ghost predicate ClassesWant(p: Plan, from: nat, want: Option<RuntimeClass>)
    requires Aligned(p)
  {
    forall i :: from <= i < |p.resources| && ClassControl in p.controls[i] ==>
      WantedClass(p.c, EnabledAt(p, i), p.resources[i].runtimeClass) == want
  }

  ghost predicate HasClass(p: Plan, from: nat)
    requires Aligned(p)
  {
    exists i :: from <= i < |p.resources| && ClassControl in p.controls[i]
  }

  ghost predicate AllClassesWork(p: Plan, from: nat, s: Schedule)
    requires Aligned(p)
  {
    forall i :: from <= i < |p.resources| ==>
      ClassesWork(p.c, EnabledAt(p, i), i, 0, p.controls[i], p.resources[i].runtimeClass, s)
  }

  lemma AfterStepClass(c: Context, k: Controller, name: string, wasReady: bool, w: World, s: Schedule,
                       want: Option<RuntimeClass>)
    requires InRange(k) && ClassesWant(PlanOf(c, k), k.idx, want)
    ensures var p, w' := PlanOf(c, k), AfterStep(c, k, name, wasReady, w, s);
      && Towards(c, want, w, w')
      && (Step(c, k, w, s).verdict.Returned? && ClassControl in p.controls[k.idx] && AllClassesWork(p, k.idx, s) ==>
            ClassSlot(c, w') == want)
  {
    var p := PlanOf(c, k);
    assert p.controls[k.idx][0..] == p.controls[k.idx];
    ControlsClass(c, EnabledAt(p, k.idx), k.idx, 0, p.controls[k.idx], p.resources[k.idx], Ready, w, s, want);
    UpdateStateFrame(Step(c, k, w, s).w, k.idx, name, NotReady, k.namespace, s);
  }

  /** A completed pass whose RuntimeClass requests work leaves the class the policy wants; whatever
      fails, a class that is as wanted stays so, and no other class is touched. */
  lemma {:induction false} PassClass(c: Context, k: Controller, name: string, wasReady: bool, overall: State,
                                     w: World, s: Schedule, want: Option<RuntimeClass>)
    requires InRange(k) && ClassesWant(PlanOf(c, k), k.idx, want)
    ensures var p, r := PlanOf(c, k), StepsFrom(c, k, name, wasReady, overall, w, s);
      && Towards(c, want, w, r.w)
      && (Completed(r.ending) && HasClass(p, k.idx) && AllClassesWork(p, k.idx, s) ==> ClassSlot(c, r.w) == want)
    decreases |k.controlFuncs| - k.idx
  {
    var p, o := PlanOf(c, k), Step(c, k, w, s);
    var w' := AfterStep(c, k, name, wasReady, w, s);
    AfterStepClass(c, k, name, wasReady, w, s, want);
    assert HasClass(p, k.idx) <==> ClassControl in p.controls[k.idx] || HasClass(p, k.idx + 1);
    if o.verdict.Returned? {
      if k.idx + 1 != |k.controlFuncs| {
        PassClass(c, k.(idx := k.idx + 1), name, wasReady, Overall(overall, o.verdict.state), w', s, want);
      } else {
        UpdateStateFrame(w', k.idx + 1, name, Ready, k.namespace, s);
      }
    }
  }
}
