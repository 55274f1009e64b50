/** One reconcile pass as a whole: every stored DaemonSet is visited at most once, and the ending and
    the reported status follow from the visits judged on what was stored when the pass began. */
module Passes {
  import opened Policy
  import opened Objects
  import opened Cluster
  import opened Enforcement
  import opened Machine
  import opened Pointwise

  /** What a pass works from: everything of the controller but the cursor. */
  datatype Plan = Plan(c: Context, resources: seq<Resources>, controls: seq<seq<Control>>, names: seq<string>)

  function PlanOf(c: Context, k: Controller): Plan {
    Plan(c, k.resources, k.controlFuncs, k.stateNames)
  }

  predicate Aligned(p: Plan) {
    |p.resources| == |p.controls| == |p.names|
  }

  predicate EnabledAt(p: Plan, i: nat)
    requires i < |p.names|
  {
    IsStateEnabled(p.c.policy.spec, p.names[i])
  }

  predicate InPlan(p: Plan, i: nat, j: nat) {
    i < |p.resources| && j < |p.resources[i].daemonSets|
  }

  function TemplateAt(p: Plan, i: nat, j: nat): DaemonSet
    requires InPlan(p, i, j)
  {
    p.resources[i].daemonSets[j]
  }

  function KeyAt(p: Plan, i: nat, j: nat): Key
    requires InPlan(p, i, j)
  {
    KeyOf(p.c, TemplateAt(p, i, j))
  }

  /** No two templates of the operator have the same name. */
  ghost predicate DistinctTemplates(resources: seq<Resources>) {
    forall i, j, a, b ::
      0 <= i < |resources| && 0 <= a < |resources| &&
      0 <= j < |resources[i].daemonSets| && 0 <= b < |resources[a].daemonSets| &&
      resources[i].daemonSets[j].name == resources[a].daemonSets[b].name
      ==> i == a && j == b
  }

  ghost predicate WellPlanned(p: Plan) {
    && Aligned(p)
    && DistinctTemplates(p.resources)
    && forall i :: 0 <= i < |p.resources| ==> Once(p.controls[i], p.resources[i])
  }

  /** What the visit of a template would do to the object stored now. */
  function VisitAt(p: Plan, i: nat, j: nat, w: World, s: Schedule): Attempt
    requires Aligned(p) && InPlan(p, i, j)
  {
    VisitNow(p.c, EnabledAt(p, i), i, p.resources[i].daemonSets, j, w, s)
  }

  function StepAt(p: Plan, i: nat, w: World, s: Schedule): Outgoing
    requires Aligned(p) && i < |p.resources|
  {
    ControlsFrom(p.c, EnabledAt(p, i), i, 0, p.controls[i], p.resources[i], Ready, w, s)
  }

  /** What step `i` answers, judged on what is stored now. */
  function StepVerdict(p: Plan, i: nat, w: World, s: Schedule): Verdict
    requires Aligned(p) && i < |p.resources|
  {
    FoldVerdicts(Verdicts(p.c, EnabledAt(p, i), i, p.controls[i], p.resources[i], w, s), Ready)
  }

  ghost predicate Unmanaged(p: Plan, from: nat, key: Key) {
    forall i, j :: from <= i && InPlan(p, i, j) ==> key != KeyAt(p, i, j)
  }

  /** How many templates of state `i` its step visits, judged on what is stored now. */
  function StepReach(p: Plan, i: nat, w: World, s: Schedule): (q: nat)
    requires Aligned(p) && i < |p.resources|
    ensures q <= |p.resources[i].daemonSets|
  {
    Reach(p.c, EnabledAt(p, i), i, 0, p.controls[i], p.resources[i], w, s)
  }

  lemma StepSlot(p: Plan, i: nat, j: nat, w: World, s: Schedule)
    requires WellPlanned(p) && InPlan(p, i, j)
    ensures var o := StepAt(p, i, w, s);
      && Slot(o.w.daemonSets, KeyAt(p, i, j)) ==
           (if j < StepReach(p, i, w, s) then VisitAt(p, i, j, w, s).slot else Slot(w.daemonSets, KeyAt(p, i, j)))
      && (o.verdict.Returned? ==> StepReach(p, i, w, s) == |p.resources[i].daemonSets|)
  {
    var cs := p.controls[i];
    assert cs[0..] == cs;
    ControlsSlot(p.c, EnabledAt(p, i), i, 0, cs, p.resources[i], Ready, w, s, j);
  }

  lemma StepFrame(p: Plan, i: nat, w: World, s: Schedule)
    requires WellPlanned(p) && i < |p.resources|
    ensures var o := StepAt(p, i, w, s);
      && o.w.policies == w.policies
      && o.verdict == StepVerdict(p, i, w, s)
      && forall key :: Elsewhere(p.c, p.resources[i].daemonSets, 0, key) ==>
            Slot(o.w.daemonSets, key) == Slot(w.daemonSets, key)
  {
    var cs, r := p.controls[i], p.resources[i];
    var vs := Verdicts(p.c, EnabledAt(p, i), i, cs, r, w, s);
    assert cs[0..] == cs && vs[0..] == vs;
    ControlsFrame(p.c, EnabledAt(p, i), i, 0, cs, r, Ready, w, s);
    ControlsVerdict(p.c, EnabledAt(p, i), i, 0, cs, r, Ready, w, s, vs);
  }

  /** A step changes neither the objects nor the answers of the other states. */
  lemma StepElsewhere(p: Plan, i: nat, a: nat, w: World, s: Schedule)
    requires WellPlanned(p) && i < |p.resources| && a < |p.resources| && a != i
    ensures var w' := StepAt(p, i, w, s).w;
      && StepVerdict(p, a, w', s) == StepVerdict(p, a, w, s)
      && forall b :: 0 <= b < |p.resources[a].daemonSets| ==>
            Slot(w'.daemonSets, KeyAt(p, a, b)) == Slot(w.daemonSets, KeyAt(p, a, b)) &&
            VisitAt(p, a, b, w', s) == VisitAt(p, a, b, w, s)
  {
    var w' := StepAt(p, i, w, s).w;
    StepFrame(p, i, w, s);
    forall b | 0 <= b < |p.resources[a].daemonSets|
      ensures Slot(w'.daemonSets, KeyAt(p, a, b)) == Slot(w.daemonSets, KeyAt(p, a, b))
    {
      assert Elsewhere(p.c, p.resources[i].daemonSets, 0, KeyAt(p, a, b));
    }
    var e, r := EnabledAt(p, a), p.resources[a];
    assert Outcomes(p.c, e, a, r.daemonSets, w', s) == Outcomes(p.c, e, a, r.daemonSets, w, s);
    assert Verdicts(p.c, e, a, p.controls[a], r, w', s) == Verdicts(p.c, e, a, p.controls[a], r, w, s);
  }

  lemma SameReach(p: Plan, a: nat, w: World, w': World, s: Schedule)
    requires Aligned(p) && a < |p.resources|
    requires forall b :: 0 <= b < |p.resources[a].daemonSets| ==> VisitAt(p, a, b, w', s) == VisitAt(p, a, b, w, s)
    ensures StepReach(p, a, w', s) == StepReach(p, a, w, s)
  {
    forall b | 0 <= b < |p.resources[a].daemonSets|
      ensures VisitNow(p.c, EnabledAt(p, a), a, p.resources[a].daemonSets, b, w', s) ==
              VisitNow(p.c, EnabledAt(p, a), a, p.resources[a].daemonSets, b, w, s)
    {
      assert VisitAt(p, a, b, w', s) == VisitAt(p, a, b, w, s);
    }
    ReachSameStore(p.c, EnabledAt(p, a), a, 0, p.controls[a], p.resources[a], w, w', s);
  }

  lemma UpdateStateFrame(w: World, i: nat, name: string, state: State, namespace: string, s: Schedule)
    ensures var w' := UpdateState(w, i, name, state, namespace, s);
      && w'.daemonSets == w.daemonSets && w'.classes == w.classes
      && w'.policies.Keys == w.policies.Keys
      && forall n :: n in w.policies && n != name ==> w'.policies[n] == w.policies[n]
  {
  }

  predicate Completed(e: Ending) {
    e.Finished? && !e.error
  }

  lemma AfterStepFrame(c: Context, k: Controller, name: string, wasReady: bool, w: World, s: Schedule)
    requires InRange(k)
    ensures AfterStep(c, k, name, wasReady, w, s).daemonSets == StepAt(PlanOf(c, k), k.idx, w, s).w.daemonSets
    ensures Step(c, k, w, s) == StepAt(PlanOf(c, k), k.idx, w, s)
  {
    UpdateStateFrame(Step(c, k, w, s).w, k.idx, name, NotReady, k.namespace, s);
  }

  /** The verdicts of later states are not changed by the step at the cursor. */
  lemma LaterSteps(c: Context, k: Controller, name: string, wasReady: bool, w: World, s: Schedule, a: nat)
    requires InRange(k) && WellPlanned(PlanOf(c, k)) && k.idx < a < |k.controlFuncs|
    ensures var p, w' := PlanOf(c, k), AfterStep(c, k, name, wasReady, w, s);
      && StepVerdict(p, a, w', s) == StepVerdict(p, a, w, s)
      && forall b :: 0 <= b < |p.resources[a].daemonSets| ==>
            Slot(w'.daemonSets, KeyAt(p, a, b)) == Slot(w.daemonSets, KeyAt(p, a, b)) &&
            VisitAt(p, a, b, w', s) == VisitAt(p, a, b, w, s)
  {
    var p, w' := PlanOf(c, k), AfterStep(c, k, name, wasReady, w, s);
    var v := StepAt(p, k.idx, w, s).w;
    AfterStepFrame(c, k, name, wasReady, w, s);
    StepElsewhere(p, k.idx, a, w, s);
    var e, r := EnabledAt(p, a), p.resources[a];
    assert Outcomes(p.c, e, a, r.daemonSets, w', s) == Outcomes(p.c, e, a, r.daemonSets, v, s);
    assert Verdicts(p.c, e, a, p.controls[a], r, w', s) == Verdicts(p.c, e, a, p.controls[a], r, v, s);
  }

  /** A pass touches no DaemonSet but those of its templates. */
  lemma {:induction false} PassFrame(c: Context, k: Controller, name: string, wasReady: bool, overall: State,
                                     w: World, s: Schedule)
    requires InRange(k) && WellPlanned(PlanOf(c, k))
    ensures var p, r := PlanOf(c, k), StepsFrom(c, k, name, wasReady, overall, w, s);
            forall key :: Unmanaged(p, k.idx, key) ==> Slot(r.w.daemonSets, key) == Slot(w.daemonSets, key)
    decreases |k.controlFuncs| - k.idx
  {
    var p, o := PlanOf(c, k), Step(c, k, w, s);
    var r := StepsFrom(c, k, name, wasReady, overall, w, s);
    var w' := AfterStep(c, k, name, wasReady, w, s);
    AfterStepFrame(c, k, name, wasReady, w, s);
    StepFrame(p, k.idx, w, s);
    var k' := k.(idx := k.idx + 1);
    if o.verdict.Returned? {
      var overall' := Overall(overall, o.verdict.state);
      if k'.idx != |k'.controlFuncs| {
        PassFrame(c, k', name, wasReady, overall', w', s);
      } else {
        UpdateStateFrame(w', k'.idx, name, Ready, k'.namespace, s);
      }
    }
    forall key | Unmanaged(p, k.idx, key)
      ensures Slot(r.w.daemonSets, key) == Slot(w.daemonSets, key)
    {
      assert Unmanaged(p, k.idx + 1, key);
      forall j | 0 <= j < |p.resources[k.idx].daemonSets|
        ensures key != KeyOf(p.c, p.resources[k.idx].daemonSets[j])
      {
        assert InPlan(p, k.idx, j);
        assert key != KeyAt(p, k.idx, j);
      }
      assert Elsewhere(p.c, p.resources[k.idx].daemonSets, 0, key);
    }
  }

  /** What no later template is about is settled when the step at the cursor is over. */
  lemma PassTail(c: Context, k: Controller, name: string, wasReady: bool, overall: State, w: World, s: Schedule,
                 key: Key)
    requires InRange(k) && WellPlanned(PlanOf(c, k)) && Unmanaged(PlanOf(c, k), k.idx + 1, key)
    ensures Slot(StepsFrom(c, k, name, wasReady, overall, w, s).w.daemonSets, key) ==
            Slot(AfterStep(c, k, name, wasReady, w, s).daemonSets, key)
  {
    var o, w' := Step(c, k, w, s), AfterStep(c, k, name, wasReady, w, s);
    if o.verdict.Returned? {
      var k' := k.(idx := k.idx + 1);
      if k'.idx != |k'.controlFuncs| {
        PassFrame(c, k', name, wasReady, Overall(overall, o.verdict.state), w', s);
      } else {
        UpdateStateFrame(w', k'.idx, name, Ready, k'.namespace, s);
      }
    }
  }

  /** Where the cursor stops: behind the steps that return, as judged at the start, at the first that does not.
      The pass is completed exactly if there is none. */
  lemma {:induction false} PassCursor(c: Context, k: Controller, name: string, wasReady: bool, overall: State,
                                      w: World, s: Schedule)
    requires InRange(k) && WellPlanned(PlanOf(c, k))
    ensures var p, r, n := PlanOf(c, k), StepsFrom(c, k, name, wasReady, overall, w, s), |k.controlFuncs|;
            var m := r.controller.idx;
      && r.controller == k.(idx := m) && k.idx <= m <= n
      && (forall a :: k.idx <= a < m ==> StepVerdict(p, a, w, s).Returned?)
      && (m < n ==> !StepVerdict(p, m, w, s).Returned?)
      && (Completed(r.ending) <==> m == n)
    decreases |k.controlFuncs| - k.idx
  {
    var p, o, w' := PlanOf(c, k), Step(c, k, w, s), AfterStep(c, k, name, wasReady, w, s);
    AfterStepFrame(c, k, name, wasReady, w, s);
    StepFrame(p, k.idx, w, s);
    if o.verdict.Returned? && k.idx + 1 != |k.controlFuncs| {
      PassCursor(c, k.(idx := k.idx + 1), name, wasReady, Overall(overall, o.verdict.state), w', s);
      forall a | k.idx < a < |k.controlFuncs| ensures StepVerdict(p, a, w', s) == StepVerdict(p, a, w, s) {
        LaterSteps(c, k, name, wasReady, w, s, a);
      }
    }
  }

  /** A pass whose cursor stops at `m` has visited all templates of the states before, and of state `m` itself
      those its step gets to. */
  predicate Visited(p: Plan, m: nat, i: nat, j: nat, w: World, s: Schedule)
    requires Aligned(p) && InPlan(p, i, j)
  {
    i < m || (i == m && j < StepReach(p, i, w, s))
  }

  lemma FirstStateSlot(c: Context, k: Controller, name: string, wasReady: bool, overall: State, w: World,
                       s: Schedule, j: nat)
    requires InRange(k) && WellPlanned(PlanOf(c, k)) && InPlan(PlanOf(c, k), k.idx, j)
    ensures var p, i, r := PlanOf(c, k), k.idx, StepsFrom(c, k, name, wasReady, overall, w, s);
            Slot(r.w.daemonSets, KeyAt(p, i, j)) ==
            if Visited(p, r.controller.idx, i, j, w, s) then VisitAt(p, i, j, w, s).slot
            else Slot(w.daemonSets, KeyAt(p, i, j))
  {
    var p, i := PlanOf(c, k), k.idx;
    AfterStepFrame(c, k, name, wasReady, w, s);
    StepSlot(p, i, j, w, s);
    StepFrame(p, i, w, s);
    PassCursor(c, k, name, wasReady, overall, w, s);
    assert Unmanaged(p, i + 1, KeyAt(p, i, j));
    PassTail(c, k, name, wasReady, overall, w, s, KeyAt(p, i, j));
  }

  /** Whatever fails in a pass, it visits a prefix of the templates, in state and file order: up to where the
      cursor stops, each DaemonSet ends as its own visit leaves it; behind that, each is untouched. */
  lemma {:induction false} PassSlot(c: Context, k: Controller, name: string, wasReady: bool, overall: State,
                                    w: World, s: Schedule, i: nat, j: nat)
    requires InRange(k) && WellPlanned(PlanOf(c, k)) && k.idx <= i && InPlan(PlanOf(c, k), i, j)
    ensures var p, r := PlanOf(c, k), StepsFrom(c, k, name, wasReady, overall, w, s);
            Slot(r.w.daemonSets, KeyAt(p, i, j)) ==
            if Visited(p, r.controller.idx, i, j, w, s) then VisitAt(p, i, j, w, s).slot
            else Slot(w.daemonSets, KeyAt(p, i, j))
    decreases |k.controlFuncs| - k.idx
  {
    var p, o, w' := PlanOf(c, k), Step(c, k, w, s), AfterStep(c, k, name, wasReady, w, s);
    AfterStepFrame(c, k, name, wasReady, w, s);
    if i == k.idx {
      FirstStateSlot(c, k, name, wasReady, overall, w, s, j);
    } else {
      LaterSteps(c, k, name, wasReady, w, s, i);
      SameReach(p, i, w, w', s);
      if o.verdict.Returned? {
        PassSlot(c, k.(idx := k.idx + 1), name, wasReady, Overall(overall, o.verdict.state), w', s, i, j);
        var m := StepsFrom(c, k, name, wasReady, overall, w, s).controller.idx;
        assert Visited(p, m, i, j, w', s) == Visited(p, m, i, j, w, s);
      }
    }
  }

  // ----- how a pass ends

  /** A step counts as fine whatever state it returns other than NotReady. */
  predicate Fine(v: Verdict) {
    v.Returned? && v.state != NotReady
  }

  /** What each step answers, judged on what is stored when the pass begins. */
  function StepVerdicts(p: Plan, w: World, s: Schedule): (vs: seq<Verdict>)
    requires Aligned(p)
    ensures |vs| == |p.resources|
  {
    seq(|p.resources|, i requires 0 <= i < |p.resources| => StepVerdict(p, i, w, s))
  }

  function EndingOf(vs: seq<Verdict>, overall: State): Ending {
    if vs == [] then Finished(overall != Ready, false)
    else
      match vs[0]
      case Crashed => Panic
      case Failed => Finished(true, true)
      case Returned(state) => EndingOf(vs[1..], if state == NotReady then NotReady else overall)
  }

  /** Ready is reported exactly if every step is fine; everything else asks to be run again or panics. */
  lemma {:induction false} EndingFromVerdicts(vs: seq<Verdict>, overall: State)
    requires overall in {Ready, NotReady}
    ensures var e := EndingOf(vs, overall);
      && (e == Finished(false, false) <==> overall == Ready && forall i :: 0 <= i < |vs| ==> Fine(vs[i]))
      && (Completed(e) <==> forall i :: 0 <= i < |vs| ==> vs[i].Returned?)
      && (e.Panic? <==> exists i :: 0 <= i < |vs| && vs[i].Crashed? && forall a :: 0 <= a < i ==> vs[a].Returned?)
      && (e.Panic? || e == Finished(false, false) || e.requeue)
  {
    if vs != [] {
      match vs[0] {
        case Crashed =>
        case Failed =>
        case Returned(state) =>
          var rest, overall' := vs[1..], if state == NotReady then NotReady else overall;
          EndingFromVerdicts(rest, overall');
          assert forall i :: 0 < i < |vs| ==> vs[i] == rest[i - 1];
          if EndingOf(rest, overall').Panic? {
            var i :| 0 <= i < |rest| && rest[i].Crashed? && forall a :: 0 <= a < i ==> rest[a].Returned?;
            assert vs[i + 1].Crashed? && forall a :: 0 <= a < i + 1 ==> vs[a].Returned?;
          }
      }
    }
  }

  /** The ending of a pass is decided by what was stored when it began. */
  lemma {:induction false} PassEnding(c: Context, k: Controller, name: string, wasReady: bool, overall: State,
                                      w: World, s: Schedule, vs: seq<Verdict>)
    requires InRange(k) && WellPlanned(PlanOf(c, k)) && |vs| == |k.resources|
    requires forall i :: k.idx <= i < |vs| ==> vs[i] == StepVerdict(PlanOf(c, k), i, w, s)
    ensures StepsFrom(c, k, name, wasReady, overall, w, s).ending == EndingOf(vs[k.idx..], overall)
    decreases |k.controlFuncs| - k.idx
  {
    var p, o := PlanOf(c, k), Step(c, k, w, s);
    var w' := AfterStep(c, k, name, wasReady, w, s);
    AfterStepFrame(c, k, name, wasReady, w, s);
    StepFrame(p, k.idx, w, s);
    assert vs[k.idx..][0] == o.verdict && vs[k.idx..][1..] == vs[k.idx + 1..];
    forall i | k.idx < i < |vs|
      ensures vs[i] == StepVerdict(p, i, w', s)
    {
      LaterSteps(c, k, name, wasReady, w, s, i);
    }
    if o.verdict.Returned? && k.idx + 1 != |k.controlFuncs| {
      var overall' := Overall(overall, o.verdict.state);
      PassEnding(c, k.(idx := k.idx + 1), name, wasReady, overall', w', s, vs);
    }
  }
}
