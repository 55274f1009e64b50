/** How runs get to where they should: object by object over passes that may fail, and to Ready. */
module Liveness {
  import opened Policy
  import opened Cluster
  import opened Machine
  import opened Passes
  import opened Readiness
  import opened Convergence
  import opened Cleanup
  import opened StatusReport
  import opened Registering
  import opened Runs

  // ----- convergence without a failure-free pass

  /** The operator has taken up the policy with this runtime, and the policy is stored. */
  ghost predicate Serves(cfg: Config, policy: Subject, runtime: string, y: System) {
    && Initialised(cfg, y.k) && y.k.singleton.value.subject.name == policy.name && y.k.runtime == runtime
    && policy.name in y.w.policies && Fetch(y.w, policy.name).subject == policy
  }

  ghost predicate NoneFooled(p: Plan, w: World)
    requires Aligned(p)
  {
    forall i, j :: InPlan(p, i, j) ==> !FooledAt(p, i, j, w)
  }

  /** The action is a pass that gets to the template, and the requests about its object take effect. */
  predicate Reaches(cfg: Config, y: System, a: Action, p: Plan, i: nat, j: nat)
    requires Registered(cfg, y.k) && Aligned(p) && InPlan(p, i, j)
  {
    && a.Reconciled? && !y.crashed && Proceeds(cfg, y.k, a.name, a.probe, y.w, a.s)
    && Visited(p, Reconcile(cfg, y.k, a.name, a.probe, y.w, a.s).controller.idx, i, j, y.w, a.s)
    && TakesEffect(p, i, j, a.s)
  }

  /** Some pass of the run reaches the object. */
  predicate ReachedIn(cfg: Config, y: System, actions: seq<Action>, p: Plan, i: nat, j: nat)
    requires Registered(cfg, y.k) && Aligned(p) && InPlan(p, i, j)
    decreases |actions|
  {
    actions != [] &&
    (Reaches(cfg, y, actions[0], p, i, j) || ReachedIn(cfg, Act(cfg, y, actions[0]), actions[1..], p, i, j))
  }

  lemma PassKeepsServing(cfg: Config, policy: Subject, runtime: string, y: System, a: Action)
    requires Registered(cfg, y.k) && SoundManifests(cfg) && Serves(cfg, policy, runtime, y) && a.Reconciled?
    ensures Serves(cfg, policy, runtime, Act(cfg, y, a))
  {
    if !y.crashed && Proceeds(cfg, y.k, a.name, a.probe, y.w, a.s) {
      ReconcileIsPass(cfg, y.k, a.name, a.probe, y.w, a.s);
      var k' := Started(cfg, y.k, a.name, a.probe, y.w);
      var c, wasReady := ContextOf(cfg, k'), y.w.policies[a.name].status.state == Ready;
      PassPolicies(c, k', a.name, wasReady, Ready, y.w, a.s);
      StepsKeepController(c, k', a.name, wasReady, Ready, y.w, a.s);
    }
  }

  /** One action of such a run. */
  lemma PassOnTarget(cfg: Config, policy: Subject, runtime: string, y: System, a: Action, i: nat, j: nat)
    requires Registered(cfg, y.k) && SoundManifests(cfg) && Serves(cfg, policy, runtime, y) && a.Reconciled?
    requires InPlan(PlanFor(cfg, policy, runtime), i, j) && !FooledAt(PlanFor(cfg, policy, runtime), i, j, y.w)
    ensures var p, y' := PlanFor(cfg, policy, runtime), Act(cfg, y, a);
      && !FooledAt(p, i, j, y'.w)
      && (Slot(y'.w.daemonSets, KeyAt(p, i, j)) == Target(p, i, j) <==>
            Slot(y.w.daemonSets, KeyAt(p, i, j)) == Target(p, i, j) || Reaches(cfg, y, a, p, i, j))
  {
    if !y.crashed && Proceeds(cfg, y.k, a.name, a.probe, y.w, a.s) {
      ReconcileIsPass(cfg, y.k, a.name, a.probe, y.w, a.s);
      var k' := Started(cfg, y.k, a.name, a.probe, y.w);
      PlanForWell(cfg, policy, runtime);
      PlanForServable(cfg, policy, runtime);
      OnTargetIff(ContextOf(cfg, k'), k', a.name, y.w.policies[a.name].status.state == Ready, y.w, a.s, i, j);
    }
  }

  /** Over any number of passes, each with any failures: an object is what the policy asks for in the end exactly if
      it was in the beginning or some pass reached it. */
  lemma {:induction false} ReachedStaysOnTarget(cfg: Config, policy: Subject, runtime: string, y: System,
                                                actions: seq<Action>, i: nat, j: nat)
    requires Registered(cfg, y.k) && SoundManifests(cfg) && Serves(cfg, policy, runtime, y)
    requires forall a :: a in actions ==> a.Reconciled?
    requires InPlan(PlanFor(cfg, policy, runtime), i, j) && !FooledAt(PlanFor(cfg, policy, runtime), i, j, y.w)
    ensures var p, y' := PlanFor(cfg, policy, runtime), Execute(cfg, y, actions);
            Slot(y'.w.daemonSets, KeyAt(p, i, j)) == Target(p, i, j) <==>
            Slot(y.w.daemonSets, KeyAt(p, i, j)) == Target(p, i, j) || ReachedIn(cfg, y, actions, p, i, j)
    decreases |actions|
  {
    if actions != [] {
      assert actions[0] in actions;
      PassOnTarget(cfg, policy, runtime, y, actions[0], i, j);
      PassKeepsServing(cfg, policy, runtime, y, actions[0]);
      ReachedStaysOnTarget(cfg, policy, runtime, Act(cfg, y, actions[0]), actions[1..], i, j);
    }
  }

  /** So a run converges without any pass that is free of failures: exactly if every object that was not as asked is
      reached by some pass. */
  lemma ConvergesIff(cfg: Config, policy: Subject, runtime: string, y: System, actions: seq<Action>)
    requires Registered(cfg, y.k) && SoundManifests(cfg) && Serves(cfg, policy, runtime, y)
    requires forall a :: a in actions ==> a.Reconciled?
    requires NoneFooled(PlanFor(cfg, policy, runtime), y.w)
    ensures var p := PlanFor(cfg, policy, runtime);
            Converged(cfg, policy, runtime, Execute(cfg, y, actions).w) <==>
            forall i, j :: InPlan(p, i, j) ==>
              Slot(y.w.daemonSets, KeyAt(p, i, j)) == Target(p, i, j) || ReachedIn(cfg, y, actions, p, i, j)
  {
    var p, w' := PlanFor(cfg, policy, runtime), Execute(cfg, y, actions).w;
    forall i: nat, j: nat | InPlan(p, i, j)
      ensures Slot(w'.daemonSets, KeyAt(p, i, j)) == Target(p, i, j) <==>
              Slot(y.w.daemonSets, KeyAt(p, i, j)) == Target(p, i, j) || ReachedIn(cfg, y, actions, p, i, j)
    {
      assert !FooledAt(p, i, j, y.w);
      ReachedStaysOnTarget(cfg, policy, runtime, y, actions, i, j);
    }
  }

  // ----- Ready is reached

  /** Nothing fails and no pod is unavailable. */
  ghost predicate AllWell(s: Schedule) {
    forall site :: s(site) == Tick(Working, 0)
  }

  /** After any run, one pass in which nothing fails and no pod is unavailable reports Ready, and the policy is
      stored as Ready. */
  lemma ReadyAfterAnyRun(cfg: Config, y0: System, actions: seq<Action>, name: string, probe: Probe, s: Schedule)
    requires Registered(cfg, y0.k) && SoundManifests(cfg) && TrueHashes(cfg, y0.w) && !y0.crashed
    requires AllWell(s)
    requires var y := Execute(cfg, y0, actions); Proceeds(cfg, y.k, name, probe, y.w, s)
    ensures var y := Execute(cfg, y0, actions); var r := Reconcile(cfg, y.k, name, probe, y.w, s);
      && r.ending == Finished(false, false)
      && name in r.w.policies && r.w.policies[name].status.state == Ready
  {
    var y := Execute(cfg, y0, actions);
    RunsKeepTrueHashes(cfg, y0, actions);
    var k' := Started(cfg, y.k, name, probe, y.w);
    var policy, c := Fetch(y.w, name).subject, ContextOf(cfg, k');
    var p := PlanFor(cfg, policy, k'.runtime);
    ReconcileIsPass(cfg, y.k, name, probe, y.w, s);
    PlanForWell(cfg, policy, k'.runtime);
    PlanForServable(cfg, policy, k'.runtime);
    TrueHashesStampPlan(cfg, policy, k'.runtime, y.w);
    StampedNotStripped(p, y.w);
    assert forall i :: Effective(s, i);
    forall i | 0 <= i < |p.resources| ensures StateFine(p, i, y.w, s) {
      UntroubledStateFine(p, i, y.w, s);
    }
    ReadyIff(c, k', name, y.w.policies[name].status.state == Ready, y.w, s);
    StatusAgreesOverTrueHashes(c, k', name, y.w, s);
  }
}
