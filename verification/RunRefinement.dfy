/** The hash cache over whole runs: an operator that skips updates and one that always writes, going through the
    same history, keep the same DaemonSets and RuntimeClasses. */
module RunRefinement {
  import opened Policy
  import opened Cluster
  import opened Enforcement
  import opened SlotLaws
  import opened Machine
  import opened Passes
  import opened Refinement
  import opened Registering
  import opened Runs

  /** The same operator, but for the cache. */
  function Uncached(cfg: Config): Config {
    cfg.(caching := false)
  }

  /** Equal up to the reported states: the operators may report different states, as only one of them makes the
      extra writes that may fail. */
  ghost predicate SamePolicies(w1: World, w2: World) {
    && w1.policies.Keys == w2.policies.Keys
    && forall n :: n in w1.policies ==> w1.policies[n].(status := w2.policies[n].status) == w2.policies[n]
  }

  predicate SameController(k1: Controller, k2: Controller) {
    && k1.(singleton := k2.singleton) == k2
    && (k1.singleton.Some? <==> k2.singleton.Some?)
    && (k1.singleton.Some? ==> k1.singleton.value.subject == k2.singleton.value.subject)
  }

  ghost predicate Alike(y1: System, y2: System) {
    && y1.crashed == y2.crashed && SameController(y1.k, y2.k)
    && y1.w.daemonSets == y2.w.daemonSets && y1.w.classes == y2.w.classes && SamePolicies(y1.w, y2.w)
  }

  lemma SameRegistrations(cfg: Config, k: Controller)
    ensures Registrations(Uncached(cfg)) == Registrations(cfg) && Namespace(Uncached(cfg)) == Namespace(cfg)
    ensures Registered(Uncached(cfg), k) <==> Registered(cfg, k)
  {
    assert Registrations(Uncached(cfg)) == Registrations(cfg);
  }

  lemma SameContext(cfg: Config, k1: Controller, k2: Controller)
    requires SameController(k1, k2) && k1.singleton.Some? && cfg.caching
    ensures ContextOf(Uncached(cfg), k2) == Reference(ContextOf(cfg, k1))
  {
  }

  lemma StepIgnoresSingleton(c: Context, k: Controller, x: Option<Instance>, name: string, wasReady: bool, w: World,
                             s: Schedule)
    requires InRange(k)
    ensures var k' := k.(singleton := x);
      && Step(c, k', w, s) == Step(c, k, w, s)
      && AfterStep(c, k', name, wasReady, w, s) == AfterStep(c, k, name, wasReady, w, s)
  {
  }

  /** The step loop does not look at the fetched policy's status. */
  lemma {:induction false} StepsIgnoreSingleton(c: Context, k: Controller, x: Option<Instance>, name: string,
                                                wasReady: bool, overall: State, w: World, s: Schedule)
    requires InRange(k)
    ensures var r := StepsFrom(c, k, name, wasReady, overall, w, s);
            var r' := StepsFrom(c, k.(singleton := x), name, wasReady, overall, w, s);
            r' == r.(controller := r.controller.(singleton := x)) && r.controller.singleton == k.singleton
    decreases |k.controlFuncs| - k.idx
  {
    var o := Step(c, k, w, s);
    StepIgnoresSingleton(c, k, x, name, wasReady, w, s);
    if o.verdict.Returned? && k.idx + 1 != |k.controlFuncs| {
      assert k.(singleton := x).(idx := k.idx + 1) == k.(idx := k.idx + 1).(singleton := x);
      StepsIgnoreSingleton(c, k.(idx := k.idx + 1), x, name, wasReady, Overall(overall, o.verdict.state),
                           AfterStep(c, k, name, wasReady, w, s), s);
    }
  }

  lemma SameInit(cfg: Config, k1: Controller, k2: Controller, policy1: Instance, policy2: Instance, probe: Probe)
    requires Registered(cfg, k1) && SameController(k1, k2) && policy1.subject == policy2.subject
    ensures var i1, i2 := Init(cfg, k1, policy1, probe), Init(Uncached(cfg), k2, policy2, probe);
            i1.ok == i2.ok && SameController(i1.controller, i2.controller)
  {
    SameRegistrations(cfg, k1);
  }

  lemma SameStart(cfg: Config, k1: Controller, k2: Controller, name: string, probe: Probe, w1: World, w2: World,
                  s: Schedule)
    requires Registered(cfg, k1) && SameController(k1, k2) && SamePolicies(w1, w2)
    ensures Proceeds(cfg, k1, name, probe, w1, s) <==> Proceeds(Uncached(cfg), k2, name, probe, w2, s)
    ensures name in w1.policies ==>
              name in w2.policies &&
                SameController(Started(cfg, k1, name, probe, w1), Started(Uncached(cfg), k2, name, probe, w2))
  {
    if name in w1.policies {
      SameInit(cfg, k1, k2, Fetch(w1, name), Fetch(w2, name), probe);
    }
  }

  lemma StatusesOnly(name: string, w1: World, w2: World, v1: World, v2: World)
    requires SamePolicies(w1, w2) && OnlyStatusOf(name, w1, v1) && OnlyStatusOf(name, w2, v2)
    ensures SamePolicies(v1, v2)
  {
  }

  lemma TrueHashesTrust(cfg: Config, policy: Subject, runtime: string, w: World)
    requires TrueHashes(cfg, w) && CollisionFree(cfg, policy, runtime, w)
    ensures TrustedPlan(PlanFor(cfg, policy, runtime), 0, w)
  {
    var p := PlanFor(cfg, policy, runtime);
    TrueHashesStampPlan(cfg, policy, runtime, w);
    forall i, j | 0 <= i < |p.resources| && 0 <= j < |p.resources[i].daemonSets|
      ensures TrustedSlot(p.c, p.resources[i].daemonSets[j],
                          Slot(w.daemonSets, KeyOf(p.c, p.resources[i].daemonSets[j])))
    {
      assert InPlan(p, i, j) && StampedSlot(p.c.hash, Slot(w.daemonSets, KeyAt(p, i, j)));
    }
  }

  /** One request, answered alike, of two operators that differ in the cache alone. */
  lemma ReconcileRefines(cfg: Config, k1: Controller, k2: Controller, name: string, probe: Probe, w1: World,
                         w2: World, s: Schedule)
    requires Registered(cfg, k1) && Registered(Uncached(cfg), k2) && SoundManifests(cfg) && cfg.caching &&
             TrueHashes(cfg, w1)
    requires SameController(k1, k2) && w1.daemonSets == w2.daemonSets && w1.classes == w2.classes &&
             SamePolicies(w1, w2)
    requires Proceeds(cfg, k1, name, probe, w1, s) ==>
               CollisionFree(cfg, Fetch(w1, name).subject, Started(cfg, k1, name, probe, w1).runtime, w1)
    ensures var r1, r2 := Reconcile(cfg, k1, name, probe, w1, s), Reconcile(Uncached(cfg), k2, name, probe, w2, s);
      && SameController(r1.controller, r2.controller) && r1.w.daemonSets == r2.w.daemonSets
      && r1.w.classes == r2.w.classes && SamePolicies(r1.w, r2.w)
      && (r1.ending.Panic? <==> r2.ending.Panic?)
  {
    SameStart(cfg, k1, k2, name, probe, w1, w2, s);
    if Proceeds(cfg, k1, name, probe, w1, s) {
      PassesRefine(cfg, k1, k2, name, probe, w1, w2, s);
    }
  }

  lemma PassesRefine(cfg: Config, k1: Controller, k2: Controller, name: string, probe: Probe, w1: World, w2: World,
                     s: Schedule)
    requires Registered(cfg, k1) && Registered(Uncached(cfg), k2) && SoundManifests(cfg) && cfg.caching &&
             TrueHashes(cfg, w1)
    requires SameController(k1, k2) && w1.daemonSets == w2.daemonSets && w1.classes == w2.classes &&
             SamePolicies(w1, w2)
    requires Proceeds(cfg, k1, name, probe, w1, s) && Proceeds(Uncached(cfg), k2, name, probe, w2, s)
    requires CollisionFree(cfg, Fetch(w1, name).subject, Started(cfg, k1, name, probe, w1).runtime, w1)
    requires SameController(Started(cfg, k1, name, probe, w1), Started(Uncached(cfg), k2, name, probe, w2))
    ensures var r1, r2 := Reconcile(cfg, k1, name, probe, w1, s), Reconcile(Uncached(cfg), k2, name, probe, w2, s);
      && SameController(r1.controller, r2.controller) && r1.w.daemonSets == r2.w.daemonSets
      && r1.w.classes == r2.w.classes && SamePolicies(r1.w, r2.w)
      && (r1.ending.Panic? <==> r2.ending.Panic?)
  {
    ReconcileIsPass(cfg, k1, name, probe, w1, s);
    ReconcileIsPass(Uncached(cfg), k2, name, probe, w2, s);
    var k1', k2' := Started(cfg, k1, name, probe, w1), Started(Uncached(cfg), k2, name, probe, w2);
    var ready1, ready2 := w1.policies[name].status.state == Ready, w2.policies[name].status.state == Ready;
    var policy, c := Fetch(w1, name).subject, ContextOf(cfg, k1');
    SameContext(cfg, k1', k2');
    PlanForWell(cfg, policy, k1'.runtime);
    TrueHashesTrust(cfg, policy, k1'.runtime, w1);
    PassRefines(c, k1', name, ready1, ready2, Ready, Ready, w1, w2, s);
    StepsIgnoreSingleton(Reference(c), k1', k2'.singleton, name, ready2, Ready, w2, s);
    PassPolicies(c, k1', name, ready1, Ready, w1, s);
    PassPolicies(Reference(c), k2', name, ready2, Ready, w2, s);
    StepsIgnoreSingleton(c, k1', k1'.singleton, name, ready1, Ready, w1, s);
    StatusesOnly(name, w1, w2, Reconcile(cfg, k1, name, probe, w1, s).w,
                 Reconcile(Uncached(cfg), k2, name, probe, w2, s).w);
  }

  /** No pass of the run meets a stored object whose hash collides with that of what it wants. */
  ghost predicate NoCollisions(cfg: Config, y: System, actions: seq<Action>)
    requires Registered(cfg, y.k)
    decreases |actions|
  {
    actions == [] ||
    (var a := actions[0];
     (a.Reconciled? && Proceeds(cfg, y.k, a.name, a.probe, y.w, a.s) ==>
        CollisionFree(cfg, Fetch(y.w, a.name).subject, Started(cfg, y.k, a.name, a.probe, y.w).runtime, y.w)) &&
     NoCollisions(cfg, Act(cfg, y, a), actions[1..]))
  }

  lemma ActRefines(cfg: Config, y1: System, y2: System, a: Action)
    requires Registered(cfg, y1.k) && Registered(Uncached(cfg), y2.k) && SoundManifests(cfg) && cfg.caching &&
             TrueHashes(cfg, y1.w)
    requires Alike(y1, y2) && !y1.crashed
    requires a.Reconciled? && Proceeds(cfg, y1.k, a.name, a.probe, y1.w, a.s) ==>
               CollisionFree(cfg, Fetch(y1.w, a.name).subject, Started(cfg, y1.k, a.name, a.probe, y1.w).runtime, y1.w)
    ensures Alike(Act(cfg, y1, a), Act(Uncached(cfg), y2, a))
  {
    if a.Reconciled? {
      ReconcileRefines(cfg, y1.k, y2.k, a.name, a.probe, y1.w, y2.w, a.s);
    }
  }

  /** Over every run of passes with any failures, restarts and edits, an operator with the cache and one without
      keep the same DaemonSets, RuntimeClasses, registered states and cursor; all they may differ in is the state they
      report. */
  lemma {:induction false} RunsRefine(cfg: Config, y1: System, y2: System, actions: seq<Action>)
    requires Registered(cfg, y1.k) && Registered(Uncached(cfg), y2.k) && SoundManifests(cfg) && cfg.caching
    requires TrueHashes(cfg, y1.w) && !y1.crashed && Alike(y1, y2)
    requires NoCollisions(cfg, y1, actions)
    ensures Alike(Execute(cfg, y1, actions), Execute(Uncached(cfg), y2, actions))
    decreases |actions|
  {
    if actions != [] {
      ActRefines(cfg, y1, y2, actions[0]);
      ActKeepsTrueHashes(cfg, y1, actions[0]);
      RunsRefine(cfg, Act(cfg, y1, actions[0]), Act(Uncached(cfg), y2, actions[0]), actions[1..]);
    }
  }
}
