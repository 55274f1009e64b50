/** Whole runs of the operator: passes with any failures, restarts, and what users do in between. */
module Runs {
  import opened Policy
  import opened Objects
  import opened Cluster
  import opened Enforcement
  import opened SlotLaws
  import opened Machine
  import opened Pointwise
  import opened Passes
  import opened Readiness
  import opened Convergence
  import opened Registering
  import opened Ledger
  import opened Classes

  // ----- one reconcile request

  /** The request gets as far as the step loop. */
  predicate Proceeds(cfg: Config, k: Controller, name: string, probe: Probe, w: World, s: Schedule) {
    s(FetchPolicy).fault.Working? && name in w.policies && !Spurious(k, name) && Init(cfg, k, Fetch(w, name), probe).ok
  }

  function Started(cfg: Config, k: Controller, name: string, probe: Probe, w: World): Controller
    requires name in w.policies
  {
    Init(cfg, k, Fetch(w, name), probe).controller
  }

  lemma {:induction false} StepsKeepController(c: Context, k: Controller, name: string, wasReady: bool,
                                               overall: State, w: World, s: Schedule)
    requires InRange(k)
    ensures var k' := StepsFrom(c, k, name, wasReady, overall, w, s).controller;
            k' == k.(idx := k'.idx) && k.idx <= k'.idx <= |k.controlFuncs|
    decreases |k.controlFuncs| - k.idx
  {
    var o := Step(c, k, w, s);
    if o.verdict.Returned? && k.idx + 1 != |k.controlFuncs| {
      StepsKeepController(c, k.(idx := k.idx + 1), name, wasReady, Overall(overall, o.verdict.state),
                          AfterStep(c, k, name, wasReady, w, s), s);
    }
  }

  /** The states are registered once and the arrays stay parallel, whatever mix of passes fails. */
  lemma ReconcileKeepsRegistered(cfg: Config, k: Controller, name: string, probe: Probe, w: World, s: Schedule)
    requires Registered(cfg, k)
    ensures Registered(cfg, Reconcile(cfg, k, name, probe, w, s).controller)
  {
    if name in w.policies {
      InitKeepsRegistered(cfg, k, Fetch(w, name), probe);
      var k' := Started(cfg, k, name, probe, w);
      if Proceeds(cfg, k, name, probe, w, s) {
        StepsKeepController(ContextOf(cfg, k'), k', name, w.policies[name].status.state == Ready, Ready, w, s);
      }
    }
  }

  /** A request that gets to the step loop is one pass over the plan of the fetched policy. */
  lemma ReconcileIsPass(cfg: Config, k: Controller, name: string, probe: Probe, w: World, s: Schedule)
    requires Registered(cfg, k) && Proceeds(cfg, k, name, probe, w, s)
    ensures var k' := Started(cfg, k, name, probe, w); var c := ContextOf(cfg, k');
      && Begins(c, k') && PlanOf(c, k') == PlanFor(cfg, Fetch(w, name).subject, k'.runtime)
      && Reconcile(cfg, k, name, probe, w, s) ==
           StepsFrom(c, k', name, w.policies[name].status.state == Ready, Ready, w, s)
  {
    var k' := Started(cfg, k, name, probe, w);
    InitKeepsRegistered(cfg, k, Fetch(w, name), probe);
    InitialisedPlan(cfg, k');
  }

  // ----- runs

  datatype System = System(k: Controller, w: World, crashed: bool)

  /** What may happen: a pass for a policy, with any answers of the cluster; a restart of the operator;
      a user saving or deleting a policy; a DaemonSet being deleted by someone else; a RuntimeClass being
      saved or deleted by someone else. */
  datatype Action =
    | Reconciled(name: string, probe: Probe, s: Schedule)
    | Restart
    | SavePolicy(name: string, uid: nat, spec: Spec)
    | DropPolicy(name: string)
    | DropDaemonSet(key: Key)
    | PutClass(className: string, class_: Option<RuntimeClass>)

  function Act(cfg: Config, y: System, a: Action): (y': System)
    requires Registered(cfg, y.k)
    ensures Registered(cfg, y'.k)
  {
    match a
    case Reconciled(name, probe, s) =>
      if y.crashed then y
      else
        var r := Reconcile(cfg, y.k, name, probe, y.w, s);
        ReconcileKeepsRegistered(cfg, y.k, name, probe, y.w, s);
        System(r.controller, r.w, r.ending.Panic?)
    case Restart => System(NEW_CONTROLLER, y.w, false)
    case SavePolicy(name, uid, spec) =>
      var status := if name in y.w.policies then y.w.policies[name].status else Status(Unset, "");
      y.(w := y.w.(policies := y.w.policies[name := Stored(uid, spec, status)]))
    case DropPolicy(name) => y.(w := y.w.(policies := y.w.policies - {name}))
    case DropDaemonSet(key) => y.(w := y.w.(daemonSets := y.w.daemonSets - {key}))
    case PutClass(className, class_) => y.(w := y.w.(classes := Put(y.w.classes, className, class_)))
  }

  function Execute(cfg: Config, y: System, actions: seq<Action>): (y': System)
    requires Registered(cfg, y.k)
    ensures Registered(cfg, y'.k)
    decreases |actions|
  {
    if actions == [] then y else Execute(cfg, Act(cfg, y, actions[0]), actions[1..])
  }

  // ----- stored hashes are always true

  predicate Managed(cfg: Config, key: Key) {
    key.namespace == Namespace(cfg) &&
    exists i, j :: 0 <= i < 3 && 0 <= j < |ResourcesOf(cfg)[i].daemonSets| &&
      ResourcesOf(cfg)[i].daemonSets[j].name == key.name
  }

  /** Every stored object of the operator carries the hash of the content it was last applied with. */
  ghost predicate TrueHashes(cfg: Config, w: World) {
    forall key :: Managed(cfg, key) ==> StampedSlot(cfg.hash, Slot(w.daemonSets, key))
  }

  lemma ManagedIsPlanned(cfg: Config, policy: Subject, runtime: string, key: Key)
    ensures Managed(cfg, key) <==> !Unmanaged(PlanFor(cfg, policy, runtime), 0, key)
  {
    var p := PlanFor(cfg, policy, runtime);
    if Managed(cfg, key) {
      var i, j :| 0 <= i < 3 && 0 <= j < |ResourcesOf(cfg)[i].daemonSets| &&
          ResourcesOf(cfg)[i].daemonSets[j].name == key.name;
      assert InPlan(p, i, j) && key == KeyAt(p, i, j);
    } else {
      forall i: nat, j: nat | InPlan(p, i, j) ensures key != KeyAt(p, i, j) {
        assert ResourcesOf(cfg)[i].daemonSets[j].name == KeyAt(p, i, j).name;
      }
    }
  }

  lemma ReconcileKeepsTrueHashes(cfg: Config, k: Controller, name: string, probe: Probe, w: World, s: Schedule)
    requires Registered(cfg, k) && SoundManifests(cfg) && TrueHashes(cfg, w)
    ensures TrueHashes(cfg, Reconcile(cfg, k, name, probe, w, s).w)
  {
    if Proceeds(cfg, k, name, probe, w, s) {
      ReconcileIsPass(cfg, k, name, probe, w, s);
      var k' := Started(cfg, k, name, probe, w);
      var c, wasReady := ContextOf(cfg, k'), w.policies[name].status.state == Ready;
      var p, w' := PlanOf(c, k'), Reconcile(cfg, k, name, probe, w, s).w;
      PlanForWell(cfg, Fetch(w, name).subject, k'.runtime);
      forall key | Managed(cfg, key)
        ensures StampedSlot(cfg.hash, Slot(w'.daemonSets, key))
      {
        ManagedIsPlanned(cfg, Fetch(w, name).subject, k'.runtime, key);
        var i: nat, j: nat :| InPlan(p, i, j) && key == KeyAt(p, i, j);
        PassSlot(c, k', name, wasReady, Ready, w, s, i, j);
        VisitKeepsStamp(c, EnabledAt(p, i), i, j, TemplateAt(p, i, j), Slot(w.daemonSets, key), s);
      }
    }
  }

  /** No pass over true hashes panics. */
  lemma ReconcileNeverPanics(cfg: Config, k: Controller, name: string, probe: Probe, w: World, s: Schedule)
    requires Registered(cfg, k) && SoundManifests(cfg) && TrueHashes(cfg, w)
    ensures Reconcile(cfg, k, name, probe, w, s).ending.Finished?
  {
    if Proceeds(cfg, k, name, probe, w, s) {
      ReconcileIsPass(cfg, k, name, probe, w, s);
      var k' := Started(cfg, k, name, probe, w);
      var c, wasReady := ContextOf(cfg, k'), w.policies[name].status.state == Ready;
      var p := PlanOf(c, k');
      PlanForWell(cfg, Fetch(w, name).subject, k'.runtime);
      PlanForServable(cfg, Fetch(w, name).subject, k'.runtime);
      TrueHashesStampPlan(cfg, Fetch(w, name).subject, k'.runtime, w);
      StampedNeverPanics(c, k', name, wasReady, w, s);
    }
  }

  lemma TrueHashesStampPlan(cfg: Config, policy: Subject, runtime: string, w: World)
    requires TrueHashes(cfg, w)
    ensures StampedPlan(PlanFor(cfg, policy, runtime), w)
  {
    var p := PlanFor(cfg, policy, runtime);
    forall i: nat, j: nat | InPlan(p, i, j)
      ensures StampedSlot(p.c.hash, Slot(w.daemonSets, KeyAt(p, i, j)))
    {
      ManagedIsPlanned(cfg, policy, runtime, KeyAt(p, i, j));
    }
  }

  lemma ActKeepsTrueHashes(cfg: Config, y: System, a: Action)
    requires Registered(cfg, y.k) && SoundManifests(cfg) && TrueHashes(cfg, y.w) && !y.crashed
    ensures var y' := Act(cfg, y, a); TrueHashes(cfg, y'.w) && !y'.crashed
  {
    match a {
      case Reconciled(name, probe, s) =>
        ReconcileKeepsTrueHashes(cfg, y.k, name, probe, y.w, s);
        ReconcileNeverPanics(cfg, y.k, name, probe, y.w, s);
      case _ =>
        var w' := Act(cfg, y, a).w;
        forall key | Managed(cfg, key) ensures StampedSlot(cfg.hash, Slot(w'.daemonSets, key)) {
          assert StampedSlot(cfg.hash, Slot(y.w.daemonSets, key));
        }
    }
  }

  /** In every run the stored hashes stay true and the operator never panics. */
  lemma {:induction false} RunsKeepTrueHashes(cfg: Config, y: System, actions: seq<Action>)
    requires Registered(cfg, y.k) && SoundManifests(cfg) && TrueHashes(cfg, y.w) && !y.crashed
    ensures var y' := Execute(cfg, y, actions); TrueHashes(cfg, y'.w) && !y'.crashed
    decreases |actions|
  {
    if actions != [] {
      ActKeepsTrueHashes(cfg, y, actions[0]);
      RunsKeepTrueHashes(cfg, Act(cfg, y, actions[0]), actions[1..]);
    }
  }

  // ----- recovery

  /** No stored object of the operator has a hash that collides with that of what the policy now asks for. */
  ghost predicate CollisionFree(cfg: Config, policy: Subject, runtime: string, w: World) {
    var p := PlanFor(cfg, policy, runtime);
    forall i, j :: InPlan(p, i, j) ==>
      var slot, prepared := Slot(w.daemonSets, KeyAt(p, i, j)), Prepare(p.c, TemplateAt(p, i, j));
      prepared.Built? && slot.Some? ==> NoCollision(cfg.hash, slot.value, prepared.obj)
  }

  /** The DaemonSets the operator manages are exactly what the policy, the manifests, the detected runtime
      and the namespace ask for. */
  ghost predicate Converged(cfg: Config, policy: Subject, runtime: string, w: World) {
    var p := PlanFor(cfg, policy, runtime);
    forall i, j :: InPlan(p, i, j) ==> Slot(w.daemonSets, KeyAt(p, i, j)) == Target(p, i, j)
  }

  /** After any run whatsoever, one failure-free pass makes the managed DaemonSets what the policy asks
      for and leaves every other DaemonSet alone. */
  lemma RecoversFromAnyRun(cfg: Config, y0: System, actions: seq<Action>, name: string, probe: Probe, s: Schedule)
    requires Registered(cfg, y0.k) && SoundManifests(cfg) && TrueHashes(cfg, y0.w) && !y0.crashed
    requires FailureFree(s)
    requires var y := Execute(cfg, y0, actions);
      && Proceeds(cfg, y.k, name, probe, y.w, s)
      && CollisionFree(cfg, Fetch(y.w, name).subject, Started(cfg, y.k, name, probe, y.w).runtime, y.w)
    ensures var y := Execute(cfg, y0, actions); var r := Reconcile(cfg, y.k, name, probe, y.w, s);
      && Completed(r.ending)
      && Converged(cfg, Fetch(y.w, name).subject, r.controller.runtime, r.w)
      && (forall key :: !Managed(cfg, key) ==> Slot(r.w.daemonSets, key) == Slot(y.w.daemonSets, key))
  {
    var y := Execute(cfg, y0, actions);
    RunsKeepTrueHashes(cfg, y0, actions);
    var k' := Started(cfg, y.k, name, probe, y.w);
    var policy, runtime, c := Fetch(y.w, name).subject, k'.runtime, ContextOf(cfg, k');
    var wasReady := y.w.policies[name].status.state == Ready;
    ReconcileIsPass(cfg, y.k, name, probe, y.w, s);
    StepsKeepController(c, k', name, wasReady, Ready, y.w, s);
    PlanForWell(cfg, policy, runtime);
    PlanForServable(cfg, policy, runtime);
    TrueHashesStampPlan(cfg, policy, runtime, y.w);
    var p := PlanFor(cfg, policy, runtime);
    forall i: nat, j: nat | InPlan(p, i, j) ensures Trusted(p, i, j, y.w) {
      assert StampedSlot(p.c.hash, Slot(y.w.daemonSets, KeyAt(p, i, j)));
    }
    HistoryIndependence(c, k', name, wasReady, y.w, s);
    forall key | !Managed(cfg, key) ensures Unmanaged(p, 0, key) {
      ManagedIsPlanned(cfg, policy, runtime, key);
    }
  }

  /** So two operators that went through different histories agree as soon as each has made one
      failure-free pass for the same policy with the same runtime. */
  lemma ConvergedUnique(cfg: Config, policy: Subject, runtime: string, w1: World, w2: World, key: Key)
    requires Converged(cfg, policy, runtime, w1) && Converged(cfg, policy, runtime, w2) && Managed(cfg, key)
    ensures Slot(w1.daemonSets, key) == Slot(w2.daemonSets, key)
  {
    ManagedIsPlanned(cfg, policy, runtime, key);
    var p := PlanFor(cfg, policy, runtime);
    var i: nat, j: nat :| InPlan(p, i, j) && key == KeyAt(p, i, j);
  }

  // ----- one policy only

  /** Everything written belongs to the policy of that name, and no state but Ready and NotReady is reported, with
      the operator's namespace. */
  predicate OwnedBy(name: string, namespace: string, r: Request) {
    match r
    case CreateDaemonSet(_, obj) => obj.owner.Some? && obj.owner.value.name == name
    case UpdateDaemonSet(_, obj) => obj.owner.Some? && obj.owner.value.name == name
    case CreateClass(obj) => obj.owner.Some? && obj.owner.value.name == name
    case UpdateClass(obj) => obj.owner.Some? && obj.owner.value.name == name
    case PutStatus(policy, status) =>
      policy == name && status.state in {Ready, NotReady} && status.namespace == namespace
    case DeleteDaemonSet(_) => true
    case DeleteClass(_) => true
  }

  function OwnedRule(name: string, namespace: string): Rule {
    (r: Request) => OwnedBy(name, namespace, r)
  }

  lemma VisitOwned(c: Context, enabled: bool, i: nat, j: nat, t: DaemonSet, slot: Option<DaemonSet>, s: Schedule)
    ensures AllFrom(Visit(c, enabled, i, j, t, slot, s).log, 0, OwnedRule(c.policy.name, c.namespace))
  {
  }

  lemma PlanOwned(p: Plan, w: World, s: Schedule)
    requires Aligned(p)
    ensures PlanObeys(p, 0, w, s, OwnedRule(p.c.policy.name, p.c.namespace))
  {
    forall i | 0 <= i < |p.resources|
      ensures VisitsObey(p.c, EnabledAt(p, i), i, p.resources[i].daemonSets, 0, w, s,
                         OwnedRule(p.c.policy.name, p.c.namespace))
    {
      forall j | 0 <= j < |p.resources[i].daemonSets|
        ensures AllFrom(VisitNow(p.c, EnabledAt(p, i), i, p.resources[i].daemonSets, j, w, s).log, 0,
                        OwnedRule(p.c.policy.name, p.c.namespace))
      {
        VisitOwned(p.c, EnabledAt(p, i), i, j, TemplateAt(p, i, j), Slot(w.daemonSets, KeyAt(p, i, j)), s);
      }
    }
  }

  lemma ReconcileOwned(cfg: Config, k: Controller, name: string, probe: Probe, w: World, s: Schedule)
    requires Registered(cfg, k) && SoundManifests(cfg)
    ensures var r := Reconcile(cfg, k, name, probe, w, s);
      && w.log <= r.w.log && AllFrom(r.w.log, |w.log|, OwnedRule(name, Namespace(cfg)))
      && (Spurious(k, name) ==> r.controller == k && r.w == w)
      && (r.controller.singleton.Some? && k.singleton.None? ==> r.controller.singleton.value.subject.name == name)
      && (k.singleton.Some? ==>
            r.controller.singleton.Some? && r.controller.singleton.value.subject.name == k.singleton.value.subject.name)
  {
    if Proceeds(cfg, k, name, probe, w, s) {
      ReconcileIsPass(cfg, k, name, probe, w, s);
      var k' := Started(cfg, k, name, probe, w);
      var c, wasReady := ContextOf(cfg, k'), w.policies[name].status.state == Ready;
      PlanForWell(cfg, Fetch(w, name).subject, k'.runtime);
      PlanOwned(PlanOf(c, k'), w, s);
      PassLog(c, k', name, wasReady, Ready, w, s, |w.log|, OwnedRule(name, Namespace(cfg)));
      StepsKeepController(c, k', name, wasReady, Ready, w, s);
    }
  }

  lemma AllFromExtends(a: seq<Request>, b: seq<Request>, m: nat, ok: Rule)
    requires m <= |a| && a <= b && AllFrom(a, m, ok) && AllFrom(b, |a|, ok)
    ensures AllFrom(b, m, ok)
  {
    assert forall x :: 0 <= x < |a| ==> b[x] == a[x];
  }

  /** Once the operator has taken up a policy it works for that one only until it is restarted: no pass
      for another changes anything, and all it writes belongs to the policy it took up. */
  lemma {:induction false} SingletonSafety(cfg: Config, y: System, actions: seq<Action>)
    requires Registered(cfg, y.k) && SoundManifests(cfg) && y.k.singleton.Some?
    requires forall a :: a in actions ==> !a.Restart?
    ensures var y', name := Execute(cfg, y, actions), y.k.singleton.value.subject.name;
      && y'.k.singleton.Some? && y'.k.singleton.value.subject.name == name
      && y.w.log <= y'.w.log && AllFrom(y'.w.log, |y.w.log|, OwnedRule(name, Namespace(cfg)))
    decreases |actions|
  {
    if actions != [] {
      var a, y1 := actions[0], Act(cfg, y, actions[0]);
      var name := y.k.singleton.value.subject.name;
      assert a in actions;
      if a.Reconciled? && !y.crashed {
        ReconcileOwned(cfg, y.k, a.name, a.probe, y.w, a.s);
      }
      assert y.w.log <= y1.w.log && AllFrom(y1.w.log, |y.w.log|, OwnedRule(name, Namespace(cfg)));
      SingletonSafety(cfg, y1, actions[1..]);
      AllFromExtends(y1.w.log, Execute(cfg, y, actions).w.log, |y.w.log|, OwnedRule(name, Namespace(cfg)));
    }
  }

  /** The runtime is detected once: until the operator is restarted no pass changes it, whatever the
      nodes report later and whatever default a policy is given. */
  lemma {:induction false} RuntimeFrozen(cfg: Config, y: System, actions: seq<Action>)
    requires Registered(cfg, y.k) && y.k.controlFuncs != []
    requires forall a :: a in actions ==> !a.Restart?
    ensures var y' := Execute(cfg, y, actions);
            y'.k.runtime == y.k.runtime && y'.k.resources == y.k.resources == ResourcesOf(cfg)
    decreases |actions|
  {
    if actions != [] {
      var a, y1 := actions[0], Act(cfg, y, actions[0]);
      assert a in actions;
      if a.Reconciled? && !y.crashed && Proceeds(cfg, y.k, a.name, a.probe, y.w, a.s) {
        var k' := Started(cfg, y.k, a.name, a.probe, y.w);
        ReconcileIsPass(cfg, y.k, a.name, a.probe, y.w, a.s);
        StepsKeepController(ContextOf(cfg, k'), k', a.name, y.w.policies[a.name].status.state == Ready, Ready, y.w,
                            a.s);
      }
      RuntimeFrozen(cfg, y1, actions[1..]);
    }
  }

  // ----- rest

  /** A pass changes nothing of a policy but the status of its own. */
  ghost predicate OnlyStatusOf(name: string, w: World, w': World) {
    && w'.policies.Keys == w.policies.Keys
    && (forall n :: n in w.policies && n != name ==> w'.policies[n] == w.policies[n])
    && (name in w.policies ==> w'.policies[name] == w.policies[name].(status := w'.policies[name].status))
  }

  lemma AfterStepPolicies(c: Context, k: Controller, name: string, wasReady: bool, w: World, s: Schedule)
    requires InRange(k)
    ensures OnlyStatusOf(name, w, AfterStep(c, k, name, wasReady, w, s))
  {
    var enabled := IsStateEnabled(c.policy.spec, k.stateNames[k.idx]);
    ControlsFrame(c, enabled, k.idx, 0, k.controlFuncs[k.idx], k.resources[k.idx], Ready, w, s);
  }

  lemma {:induction false} PassPolicies(c: Context, k: Controller, name: string, wasReady: bool, overall: State,
                                        w: World, s: Schedule)
    requires InRange(k)
    ensures OnlyStatusOf(name, w, StepsFrom(c, k, name, wasReady, overall, w, s).w)
    decreases |k.controlFuncs| - k.idx
  {
    var o, w' := Step(c, k, w, s), AfterStep(c, k, name, wasReady, w, s);
    AfterStepPolicies(c, k, name, wasReady, w, s);
    if o.verdict.Returned? && k.idx + 1 != |k.controlFuncs| {
      PassPolicies(c, k.(idx := k.idx + 1), name, wasReady, Overall(overall, o.verdict.state), w', s);
    }
  }

  /** RuntimeClass manifests are kept in one state directory. */
  ghost predicate ClassInOneState(cfg: Config) {
    forall i, j ::
      0 <= i < 3 && 0 <= j < 3 && ClassControl in ControlsOf(cfg)[i] && ClassControl in ControlsOf(cfg)[j] ==> i == j
  }

  /** Nothing is left to do for the policy. */
  ghost predicate Resting(cfg: Config, policy: Subject, runtime: string, want: Option<RuntimeClass>, k: Controller,
                          w: World) {
    var p := PlanFor(cfg, policy, runtime);
    && Initialised(cfg, k) && k.singleton.value.subject.name == policy.name && k.runtime == runtime
    && policy.name in w.policies && Fetch(w, policy.name).subject == policy
    && AtRest(p, w)
    && ClassesWant(p, 0, want) && ClassSlot(p.c, w) == want
  }

  /** One more pass, of any policy and with any failures, changes nothing. */
  lemma RestSurvivesPass(cfg: Config, policy: Subject, runtime: string, want: Option<RuntimeClass>, k: Controller,
                         w: World, name: string, probe: Probe, s: Schedule)
    requires Registered(cfg, k) && SoundManifests(cfg) && cfg.caching && Resting(cfg, policy, runtime, want, k, w)
    ensures var r := Reconcile(cfg, k, name, probe, w, s);
      && Resting(cfg, policy, runtime, want, r.controller, r.w)
      && r.w.daemonSets == w.daemonSets && r.w.classes == w.classes
      && w.log <= r.w.log && AllFrom(r.w.log, |w.log|, NO_DAEMON_SET_WRITES)
  {
    if Proceeds(cfg, k, name, probe, w, s) {
      ReconcileIsPass(cfg, k, name, probe, w, s);
      var k' := Started(cfg, k, name, probe, w);
      var c, wasReady := ContextOf(cfg, k'), w.policies[name].status.state == Ready;
      var w' := Reconcile(cfg, k, name, probe, w, s).w;
      PlanForWell(cfg, policy, runtime);
      RestLasts(c, k', name, wasReady, w, s);
      PassClass(c, k', name, wasReady, Ready, w, s, want);
      SameSlotsSameStore(w'.classes, w.classes);
      PassPolicies(c, k', name, wasReady, Ready, w, s);
      StepsKeepController(c, k', name, wasReady, Ready, w, s);
    }
  }

  /** Once at rest the operator stays at rest through any number of passes: no DaemonSet is created or
      updated, and no DaemonSet or RuntimeClass changes, whatever fails and whatever the pods do. */
  lemma {:induction false} RestForever(cfg: Config, policy: Subject, runtime: string, want: Option<RuntimeClass>,
                                       y: System, actions: seq<Action>)
    requires Registered(cfg, y.k) && SoundManifests(cfg) && cfg.caching && Resting(cfg, policy, runtime, want, y.k, y.w)
    requires forall a :: a in actions ==> a.Reconciled?
    ensures var y' := Execute(cfg, y, actions);
      && y'.w.daemonSets == y.w.daemonSets && y'.w.classes == y.w.classes
      && y.w.log <= y'.w.log && AllFrom(y'.w.log, |y.w.log|, NO_DAEMON_SET_WRITES)
    decreases |actions|
  {
    if actions != [] {
      var a, y1 := actions[0], Act(cfg, y, actions[0]);
      assert a in actions;
      if !y.crashed {
        RestSurvivesPass(cfg, policy, runtime, want, y.k, y.w, a.name, a.probe, a.s);
      }
      RestForever(cfg, policy, runtime, want, y1, actions[1..]);
      AllFromExtends(y1.w.log, Execute(cfg, y, actions).w.log, |y.w.log|, NO_DAEMON_SET_WRITES);
    }
  }

  lemma FailureFreeClassesWork(p: Plan, s: Schedule)
    requires Aligned(p) && FailureFree(s) && Servable(p)
    ensures AllClassesWork(p, 0, s)
  {
    forall i | 0 <= i < |p.resources|
      ensures ClassesWork(p.c, EnabledAt(p, i), i, 0, p.controls[i], p.resources[i].runtimeClass, s)
    {
      assert Owned(p.c, p.resources[i].runtimeClass.owner).Some?;
    }
  }

  lemma OneWant(cfg: Config, policy: Subject, runtime: string, w: World) returns (want: Option<RuntimeClass>)
    requires ClassInOneState(cfg)
    ensures var p := PlanFor(cfg, policy, runtime);
            ClassesWant(p, 0, want) && (HasClass(p, 0) || want == ClassSlot(p.c, w))
  {
    var p := PlanFor(cfg, policy, runtime);
    if i :| 0 <= i < |p.resources| && ClassControl in p.controls[i] {
      want := WantedClass(p.c, EnabledAt(p, i), p.resources[i].runtimeClass);
    } else {
      want := ClassSlot(p.c, w);
    }
  }

  /** One failure-free pass brings the operator to rest. */
  lemma FailureFreePassRests(cfg: Config, k: Controller, name: string, probe: Probe, w: World, s: Schedule)
    returns (want: Option<RuntimeClass>)
    requires Registered(cfg, k) && SoundManifests(cfg) && ClassInOneState(cfg) && TrueHashes(cfg, w)
    requires FailureFree(s) && Proceeds(cfg, k, name, probe, w, s)
    ensures var r := Reconcile(cfg, k, name, probe, w, s);
            Completed(r.ending) && Resting(cfg, Fetch(w, name).subject, r.controller.runtime, want, r.controller, r.w)
  {
    ReconcileIsPass(cfg, k, name, probe, w, s);
    var k' := Started(cfg, k, name, probe, w);
    var policy, runtime, c := Fetch(w, name).subject, k'.runtime, ContextOf(cfg, k');
    var wasReady, w' := w.policies[name].status.state == Ready, Reconcile(cfg, k, name, probe, w, s).w;
    var p := PlanFor(cfg, policy, runtime);
    PlanForWell(cfg, policy, runtime);
    PlanForServable(cfg, policy, runtime);
    TrueHashesStampPlan(cfg, policy, runtime, w);
    StampedNotStripped(p, w);
    FailureFreeCompletes(c, k', name, wasReady, w, s);
    PassBringsRest(c, k', name, wasReady, w, s);
    PassPolicies(c, k', name, wasReady, Ready, w, s);
    StepsKeepController(c, k', name, wasReady, Ready, w, s);
    want := OneWant(cfg, policy, runtime, w);
    FailureFreeClassesWork(p, s);
    PassClass(c, k', name, wasReady, Ready, w, s, want);
  }
}
