/** What a pass may write: a property of every request a visit, a RuntimeClass control and a status
    write can send is a property of every request of the pass. */
module Ledger {
  import opened Policy
  import opened Objects
  import opened Cluster
  import opened Enforcement
  import opened Machine
  import opened Pointwise
  import opened Passes

  type Rule = Request -> bool

  ghost predicate AllFrom(log: seq<Request>, n: nat, ok: Rule) {
    forall x :: n <= x < |log| ==> ok(log[x])
  }

  ghost predicate VisitsObey(c: Context, enabled: bool, i: nat, ts: seq<DaemonSet>, from: nat, w: World,
                             s: Schedule, ok: Rule) {
    forall j :: from <= j < |ts| ==> AllFrom(VisitNow(c, enabled, i, ts, j, w, s).log, 0, ok)
  }

  ghost predicate ClassObeys(c: Context, t: RuntimeClass, ok: Rule) {
    ok(DeleteClass(RuntimeClassName(c.policy.spec))) && ok(CreateClass(DesiredClass(c, t))) &&
      ok(UpdateClass(DesiredClass(c, t)))
  }

  lemma {:induction false} DaemonSetsLog(c: Context, enabled: bool, i: nat, ts: seq<DaemonSet>, j: nat,
                                         result: State, w: World, s: Schedule, n: nat, ok: Rule)
    requires j <= |ts| && DistinctNames(ts)
    requires VisitsObey(c, enabled, i, ts, j, w, s, ok) && AllFrom(w.log, n, ok)
    ensures var o := DaemonSetsFrom(c, enabled, i, ts, j, result, w, s);
            AllFrom(o.w.log, n, ok) && w.log <= o.w.log
    decreases |ts| - j
  {
    if j < |ts| {
      var v := VisitNow(c, enabled, i, ts, j, w, s);
      var w' := Record(w, KeyOf(c, ts[j]), v);
      assert AllFrom(v.log, 0, ok);
      assert AllFrom(w'.log, n, ok);
      if !v.outcome.Panicked? {
        OtherVisits(c, enabled, i, ts, j, v, w, s);
        DaemonSetsLog(c, enabled, i, ts, j + 1, Merge(result, v.outcome), w', s, n, ok);
      }
    }
  }

  lemma SameStoreObeys(c: Context, enabled: bool, i: nat, ts: seq<DaemonSet>, w: World, w': World, s: Schedule,
                       ok: Rule)
    requires w'.daemonSets == w.daemonSets && VisitsObey(c, enabled, i, ts, 0, w, s, ok)
    ensures VisitsObey(c, enabled, i, ts, 0, w', s, ok)
  {
    assert forall j :: 0 <= j < |ts| ==> VisitNow(c, enabled, i, ts, j, w', s) == VisitNow(c, enabled, i, ts, j, w, s);
  }

  lemma {:induction false} ControlsLog(c: Context, enabled: bool, i: nat, m: nat, controls: seq<Control>, r: Resources,
                                       result: State, w: World, s: Schedule, n: nat, ok: Rule)
    requires m <= |controls| && Once(controls, r) && DistinctNames(r.daemonSets)
    requires DaemonSetControl in controls[m..] ==> VisitsObey(c, enabled, i, r.daemonSets, 0, w, s, ok)
    requires ClassControl in controls[m..] ==> ClassObeys(c, r.runtimeClass, ok)
    requires AllFrom(w.log, n, ok)
    ensures var o := ControlsFrom(c, enabled, i, m, controls, r, result, w, s);
            AllFrom(o.w.log, n, ok) && w.log <= o.w.log
    decreases |controls| - m
  {
    if m < |controls| {
      var o := RunControl(c, enabled, i, m, controls[m], r, w, s);
      assert controls[m..] == [controls[m]] + controls[m + 1..];
      match controls[m] {
        case DaemonSetControl =>
          DaemonSetsLog(c, enabled, i, r.daemonSets, 0, Ready, w, s, n, ok);
          assert DaemonSetControl !in controls[m + 1..];
        case ClassControl =>
          ClassControlLocal(c, enabled, i, m, r.runtimeClass, w, s);
          assert AllFrom(o.w.log, n, ok);
          if DaemonSetControl in controls[m + 1..] {
            SameStoreObeys(c, enabled, i, r.daemonSets, w, o.w, s, ok);
          }
      }
      if o.verdict.Returned? {
        ControlsLog(c, enabled, i, m + 1, controls, r, if o.verdict.state != Ready then o.verdict.state else result,
                    o.w, s, n, ok);
      }
    }
  }

  ghost predicate PlanObeys(p: Plan, from: nat, w: World, s: Schedule, ok: Rule)
    requires Aligned(p)
  {
    forall i :: from <= i < |p.resources| ==>
      && VisitsObey(p.c, EnabledAt(p, i), i, p.resources[i].daemonSets, 0, w, s, ok)
      && (ClassControl in p.controls[i] ==> ClassObeys(p.c, p.resources[i].runtimeClass, ok))
  }

  ghost predicate StatusObeys(name: string, namespace: string, ok: Rule) {
    ok(PutStatus(name, Status(Ready, namespace))) && ok(PutStatus(name, Status(NotReady, namespace)))
  }

  lemma StepLog(p: Plan, i: nat, w: World, s: Schedule, n: nat, ok: Rule)
    requires WellPlanned(p) && i < |p.resources| && PlanObeys(p, i, w, s, ok) && AllFrom(w.log, n, ok)
    ensures var w' := StepAt(p, i, w, s).w; AllFrom(w'.log, n, ok) && w.log <= w'.log
  {
    assert p.controls[i][0..] == p.controls[i];
    ControlsLog(p.c, EnabledAt(p, i), i, 0, p.controls[i], p.resources[i], Ready, w, s, n, ok);
  }

  lemma UpdateStateLog(w: World, i: nat, name: string, state: State, namespace: string, s: Schedule, n: nat, ok: Rule)
    requires AllFrom(w.log, n, ok) && ok(PutStatus(name, Status(state, namespace)))
    ensures var w' := UpdateState(w, i, name, state, namespace, s); AllFrom(w'.log, n, ok) && w.log <= w'.log
  {
  }

  /** Every request a pass sends obeys a rule that its visits, as judged at the start, obey. */
  lemma {:induction false} PassLog(c: Context, k: Controller, name: string, wasReady: bool, overall: State,
                                   w: World, s: Schedule, n: nat, ok: Rule)
    requires InRange(k) && WellPlanned(PlanOf(c, k))
    requires PlanObeys(PlanOf(c, k), k.idx, w, s, ok) && StatusObeys(name, k.namespace, ok) && AllFrom(w.log, n, ok)
    ensures var r := StepsFrom(c, k, name, wasReady, overall, w, s);
            AllFrom(r.w.log, n, ok) && w.log <= r.w.log
    decreases |k.controlFuncs| - k.idx
  {
    var p, o := PlanOf(c, k), Step(c, k, w, s);
    var w' := AfterStep(c, k, name, wasReady, w, s);
    AfterStepFrame(c, k, name, wasReady, w, s);
    StepLog(p, k.idx, w, s, n, ok);
    UpdateStateLog(o.w, k.idx, name, NotReady, k.namespace, s, n, ok);
    assert AllFrom(w'.log, n, ok) && w.log <= w'.log;
    if o.verdict.Returned? {
      var k' := k.(idx := k.idx + 1);
      var overall' := Overall(overall, o.verdict.state);
      if k'.idx != |k'.controlFuncs| {
        PlanStillObeys(c, k, name, wasReady, w, s, ok);
        PassLog(c, k', name, wasReady, overall', w', s, n, ok);
      } else {
        UpdateStateLog(w', k'.idx, name, Ready, k'.namespace, s, n, ok);
      }
    }
  }

  lemma PlanStillObeys(c: Context, k: Controller, name: string, wasReady: bool, w: World, s: Schedule, ok: Rule)
    requires InRange(k) && WellPlanned(PlanOf(c, k)) && PlanObeys(PlanOf(c, k), k.idx, w, s, ok)
    ensures PlanObeys(PlanOf(c, k), k.idx + 1, AfterStep(c, k, name, wasReady, w, s), s, ok)
  {
    var p, w' := PlanOf(c, k), AfterStep(c, k, name, wasReady, w, s);
    forall i | k.idx + 1 <= i < |p.resources|
      ensures VisitsObey(p.c, EnabledAt(p, i), i, p.resources[i].daemonSets, 0, w', s, ok)
    {
      LaterSteps(c, k, name, wasReady, w, s, i);
      forall j | 0 <= j < |p.resources[i].daemonSets|
        ensures AllFrom(VisitNow(p.c, EnabledAt(p, i), i, p.resources[i].daemonSets, j, w', s).log, 0, ok)
      {
        assert VisitAt(p, i, j, w', s) == VisitAt(p, i, j, w, s);
      }
    }
  }
}
