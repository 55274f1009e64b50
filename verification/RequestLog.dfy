/** The DaemonSet requests of a pass, exactly: those of its visits, in state and file order. */
module RequestLog {
  import opened Policy
  import opened Objects
  import opened Cluster
  import opened Enforcement
  import opened Machine
  import opened Pointwise
  import opened Passes
  import opened Ledger

  predicate OnDaemonSet(r: Request) {
    r.CreateDaemonSet? || r.UpdateDaemonSet? || r.DeleteDaemonSet?
  }

  function DaemonSetRequests(log: seq<Request>): seq<Request> {
    if log == [] then [] else (if OnDaemonSet(log[0]) then [log[0]] else []) + DaemonSetRequests(log[1..])
  }

  lemma {:induction false} RequestsAppend(a: seq<Request>, b: seq<Request>)
    ensures DaemonSetRequests(a + b) == DaemonSetRequests(a) + DaemonSetRequests(b)
  {
    if a == [] {
      assert a + b == b;
    } else {
      var first := if OnDaemonSet(a[0]) then [a[0]] else [];
      assert (a + b)[0] == a[0] && (a + b)[1..] == a[1..] + b;
      assert DaemonSetRequests(a + b) == first + DaemonSetRequests(a[1..] + b);
      RequestsAppend(a[1..], b);
      Associate(first, DaemonSetRequests(a[1..]), DaemonSetRequests(b));
    }
  }

  lemma {:induction false} RequestsIn(log: seq<Request>, r: Request)
    ensures r in DaemonSetRequests(log) <==> r in log && OnDaemonSet(r)
  {
    if log != [] {
      assert log == [log[0]] + log[1..];
      RequestsIn(log[1..], r);
    }
  }

  /** The requests of the visits from `j` up to `q`, one after the other. */
  function VisitLogs(c: Context, enabled: bool, i: nat, ts: seq<DaemonSet>, j: nat, q: nat, w: World, s: Schedule)
    : seq<Request>
    requires j <= q <= |ts|
    decreases q - j
  {
    if j == q then [] else VisitNow(c, enabled, i, ts, j, w, s).log + VisitLogs(c, enabled, i, ts, j + 1, q, w, s)
  }

  lemma {:induction false} SameVisitLogs(c: Context, enabled: bool, i: nat, ts: seq<DaemonSet>, j: nat, q: nat,
                                         w: World, w': World, s: Schedule)
    requires j <= q <= |ts|
    requires forall b :: j <= b < |ts| ==> VisitNow(c, enabled, i, ts, b, w', s) == VisitNow(c, enabled, i, ts, b, w, s)
    ensures VisitLogs(c, enabled, i, ts, j, q, w', s) == VisitLogs(c, enabled, i, ts, j, q, w, s)
    decreases q - j
  {
    if j < q {
      SameVisitLogs(c, enabled, i, ts, j + 1, q, w, w', s);
    }
  }

  /** A visit sends no request or one, which is about its own object. */
  lemma VisitLog(c: Context, enabled: bool, i: nat, j: nat, t: DaemonSet, slot: Option<DaemonSet>, s: Schedule)
    ensures var a := Visit(c, enabled, i, j, t, slot, s);
            DaemonSetRequests(a.log) == a.log && |a.log| <= 1 && forall r :: r in a.log ==> About(r, KeyOf(c, t))
  {
  }

  predicate About(r: Request, key: Key) {
    match r
    case CreateDaemonSet(k, _) => k == key
    case UpdateDaemonSet(k, _) => k == key
    case DeleteDaemonSet(k) => k == key
    case _ => false
  }

  lemma {:induction false} DaemonSetsRequests(c: Context, enabled: bool, i: nat, ts: seq<DaemonSet>, j: nat,
                                              result: State, w: World, s: Schedule, os: seq<Outcome>)
    requires j <= |ts| == |os| && DistinctNames(ts)
    requires forall b :: j <= b < |ts| ==> os[b] == VisitNow(c, enabled, i, ts, b, w, s).outcome
    ensures var o := DaemonSetsFrom(c, enabled, i, ts, j, result, w, s);
            o.w.log == w.log + VisitLogs(c, enabled, i, ts, j, Ran(os, j), w, s)
    decreases |ts| - j
  {
    if j < |ts| {
      var v := VisitNow(c, enabled, i, ts, j, w, s);
      var w' := Record(w, KeyOf(c, ts[j]), v);
      if !v.outcome.Panicked? {
        OtherVisits(c, enabled, i, ts, j, v, w, s);
        DaemonSetsRequests(c, enabled, i, ts, j + 1, Merge(result, v.outcome), w', s, os);
        SameVisitLogs(c, enabled, i, ts, j + 1, Ran(os, j + 1), w, w', s);
        Associate(w.log, v.log, VisitLogs(c, enabled, i, ts, j + 1, Ran(os, j + 1), w, s));
      }
    }
  }

  lemma Associate(a: seq<Request>, b: seq<Request>, d: seq<Request>)
    ensures (a + b) + d == a + (b + d)
  {
  }

  lemma {:induction false} VisitLogsPure(c: Context, enabled: bool, i: nat, ts: seq<DaemonSet>, j: nat, q: nat,
                                         w: World, s: Schedule)
    requires j <= q <= |ts|
    ensures var log := VisitLogs(c, enabled, i, ts, j, q, w, s); DaemonSetRequests(log) == log
    decreases q - j
  {
    if j < q {
      VisitLogsPure(c, enabled, i, ts, j + 1, q, w, s);
      VisitLog(c, enabled, i, j, ts[j], Slot(w.daemonSets, KeyOf(c, ts[j])), s);
      RequestsAppend(VisitNow(c, enabled, i, ts, j, w, s).log, VisitLogs(c, enabled, i, ts, j + 1, q, w, s));
    }
  }

  lemma ClassNoRequests(c: Context, enabled: bool, i: nat, n: nat, t: RuntimeClass, w: World, s: Schedule)
    ensures DaemonSetRequests(ApplyClass(c, enabled, i, n, t, w, s).w.log) == DaemonSetRequests(w.log)
  {
    var log := ApplyClass(c, enabled, i, n, t, w, s).w.log;
    if log != w.log {
      assert log == w.log + [log[|w.log|]];
      RequestsAppend(w.log, [log[|w.log|]]);
    }
  }

  lemma {:induction false} NoneBehind(c: Context, enabled: bool, i: nat, n: nat, controls: seq<Control>, r: Resources,
                                      result: State, w: World, s: Schedule)
    requires n <= |controls| && DaemonSetControl !in controls[n..]
    ensures DaemonSetRequests(ControlsFrom(c, enabled, i, n, controls, r, result, w, s).w.log) ==
            DaemonSetRequests(w.log)
    decreases |controls| - n
  {
    if n < |controls| {
      assert controls[n..] == [controls[n]] + controls[n + 1..];
      var o := RunControl(c, enabled, i, n, controls[n], r, w, s);
      ClassNoRequests(c, enabled, i, n, r.runtimeClass, w, s);
      ClassControlLocal(c, enabled, i, n, r.runtimeClass, w, s);
      if o.verdict.Returned? {
        NoneBehind(c, enabled, i, n + 1, controls, r, if o.verdict.state != Ready then o.verdict.state else result,
                   o.w, s);
      }
    }
  }

  lemma {:induction false} ControlsRequests(c: Context, enabled: bool, i: nat, n: nat, controls: seq<Control>,
                                            r: Resources, result: State, w: World, s: Schedule)
    requires n <= |controls| && Once(controls, r) && DistinctNames(r.daemonSets)
    ensures var o := ControlsFrom(c, enabled, i, n, controls, r, result, w, s);
            var q := Reach(c, enabled, i, n, controls, r, w, s);
            DaemonSetRequests(o.w.log) == DaemonSetRequests(w.log) + VisitLogs(c, enabled, i, r.daemonSets, 0, q, w, s)
    decreases |controls| - n
  {
    if n < |controls| {
      var o := RunControl(c, enabled, i, n, controls[n], r, w, s);
      var result' := if o.verdict.Returned? && o.verdict.state != Ready then o.verdict.state else result;
      var ts := r.daemonSets;
      match controls[n] {
        case DaemonSetControl =>
          var os := Outcomes(c, enabled, i, ts, w, s);
          DaemonSetsRequests(c, enabled, i, ts, 0, Ready, w, s, os);
          VisitLogsPure(c, enabled, i, ts, 0, Ran(os, 0), w, s);
          RequestsAppend(w.log, VisitLogs(c, enabled, i, ts, 0, Ran(os, 0), w, s));
          assert DaemonSetControl !in controls[n + 1..];
          NoneBehind(c, enabled, i, n + 1, controls, r, result', o.w, s);
        case ClassControl =>
          ClassNoRequests(c, enabled, i, n, r.runtimeClass, w, s);
          ClassControlLocal(c, enabled, i, n, r.runtimeClass, w, s);
          if o.verdict.Returned? {
            ControlsRequests(c, enabled, i, n + 1, controls, r, result', o.w, s);
            ReachSameStore(c, enabled, i, n + 1, controls, r, w, o.w, s);
            SameVisitLogs(c, enabled, i, ts, 0, Reach(c, enabled, i, n + 1, controls, r, w, s), w, o.w, s);
          }
      }
    }
  }

  /** The DaemonSet requests step `i` sends, judged on what is stored now. */
  function StepRequests(p: Plan, i: nat, w: World, s: Schedule): seq<Request>
    requires Aligned(p) && i < |p.resources|
  {
    VisitLogs(p.c, EnabledAt(p, i), i, p.resources[i].daemonSets, 0, StepReach(p, i, w, s), w, s)
  }

  function Concat(logs: seq<seq<Request>>): seq<Request> {
    if logs == [] then [] else logs[0] + Concat(logs[1..])
  }

  lemma StepSends(p: Plan, i: nat, w: World, s: Schedule)
    requires WellPlanned(p) && i < |p.resources|
    ensures DaemonSetRequests(StepAt(p, i, w, s).w.log) == DaemonSetRequests(w.log) + StepRequests(p, i, w, s)
  {
    ControlsRequests(p.c, EnabledAt(p, i), i, 0, p.controls[i], p.resources[i], Ready, w, s);
  }

  lemma UpdateStateSends(w: World, i: nat, name: string, state: State, namespace: string, s: Schedule)
    ensures DaemonSetRequests(UpdateState(w, i, name, state, namespace, s).log) == DaemonSetRequests(w.log)
  {
    RequestsAppend(w.log, [PutStatus(name, Status(state, namespace))]);
  }

  lemma LaterRequests(c: Context, k: Controller, name: string, wasReady: bool, w: World, s: Schedule, a: nat)
    requires InRange(k) && WellPlanned(PlanOf(c, k)) && k.idx < a < |k.controlFuncs|
    ensures StepRequests(PlanOf(c, k), a, AfterStep(c, k, name, wasReady, w, s), s) ==
            StepRequests(PlanOf(c, k), a, w, s)
  {
    var p, w' := PlanOf(c, k), AfterStep(c, k, name, wasReady, w, s);
    LaterSteps(c, k, name, wasReady, w, s, a);
    SameReach(p, a, w, w', s);
    forall b | 0 <= b < |p.resources[a].daemonSets|
      ensures VisitNow(c, EnabledAt(p, a), a, p.resources[a].daemonSets, b, w', s) ==
              VisitNow(c, EnabledAt(p, a), a, p.resources[a].daemonSets, b, w, s)
    {
      assert VisitAt(p, a, b, w', s) == VisitAt(p, a, b, w, s);
    }
    SameVisitLogs(c, EnabledAt(p, a), a, p.resources[a].daemonSets, 0, StepReach(p, a, w, s), w, w', s);
  }

  /** From `log` on, the pass has sent the DaemonSet requests of the steps from `from` up to where its cursor
      stops, one after the other. */
  ghost predicate Sent(r: Pass, log: seq<Request>, logs: seq<seq<Request>>, from: nat) {
    var m := r.controller.idx;
    from <= m <= |logs| &&
    DaemonSetRequests(r.w.log) == DaemonSetRequests(log) + Concat(logs[from..if m < |logs| then m + 1 else m])
  }

  /** The DaemonSet requests of a pass are those of its visits, one visit after the other in state and file
      order, up to where the cursor stops. */
  lemma {:induction false} PassRequests(c: Context, k: Controller, name: string, wasReady: bool, overall: State,
                                        w: World, s: Schedule, logs: seq<seq<Request>>)
    requires InRange(k) && WellPlanned(PlanOf(c, k)) && |logs| == |k.resources|
    requires forall i :: k.idx <= i < |logs| ==> logs[i] == StepRequests(PlanOf(c, k), i, w, s)
    ensures Sent(StepsFrom(c, k, name, wasReady, overall, w, s), w.log, logs, k.idx)
    decreases |k.controlFuncs| - k.idx
  {
    var p, o, w' := PlanOf(c, k), Step(c, k, w, s), AfterStep(c, k, name, wasReady, w, s);
    StepAndStatusSend(c, k, name, wasReady, w, s);
    if o.verdict.Returned? && k.idx + 1 != |k.controlFuncs| {
      forall i | k.idx < i < |logs| ensures logs[i] == StepRequests(p, i, w', s) {
        LaterRequests(c, k, name, wasReady, w, s, i);
      }
      PassRequests(c, k.(idx := k.idx + 1), name, wasReady, Overall(overall, o.verdict.state), w', s, logs);
      SentJoins(StepsFrom(c, k, name, wasReady, overall, w, s), w.log, w'.log, logs, k.idx);
    } else {
      LastSent(c, k, name, wasReady, overall, w, s, logs);
    }
  }

  lemma SentJoins(r: Pass, log: seq<Request>, log': seq<Request>, logs: seq<seq<Request>>, i: nat)
    requires i < |logs| && DaemonSetRequests(log') == DaemonSetRequests(log) + logs[i] && Sent(r, log', logs, i + 1)
    ensures Sent(r, log, logs, i)
  {
    var m := if r.controller.idx < |logs| then r.controller.idx + 1 else r.controller.idx;
    assert logs[i..m][0] == logs[i] && logs[i..m][1..] == logs[i + 1..m];
    Associate(DaemonSetRequests(log), logs[i], Concat(logs[i + 1..m]));
  }

  lemma LastSent(c: Context, k: Controller, name: string, wasReady: bool, overall: State, w: World, s: Schedule,
                 logs: seq<seq<Request>>)
    requires InRange(k) && WellPlanned(PlanOf(c, k)) && |logs| == |k.resources|
    requires logs[k.idx] == StepRequests(PlanOf(c, k), k.idx, w, s)
    requires Step(c, k, w, s).verdict.Returned? ==> k.idx + 1 == |k.controlFuncs|
    ensures Sent(StepsFrom(c, k, name, wasReady, overall, w, s), w.log, logs, k.idx)
  {
    StepAndStatusSend(c, k, name, wasReady, w, s);
    UpdateStateSends(AfterStep(c, k, name, wasReady, w, s), k.idx + 1, name, Ready, k.namespace, s);
    OneSent(StepsFrom(c, k, name, wasReady, overall, w, s), w.log, logs, k.idx);
  }

  lemma OneSent(r: Pass, log: seq<Request>, logs: seq<seq<Request>>, i: nat)
    requires i < |logs| && DaemonSetRequests(r.w.log) == DaemonSetRequests(log) + logs[i]
    requires r.controller.idx == i || (r.controller.idx == i + 1 == |logs|)
    ensures Sent(r, log, logs, i)
  {
    assert logs[i..i + 1] == [logs[i]];
    assert Concat([logs[i]]) == logs[i] + Concat([]);
  }

  lemma StepAndStatusSend(c: Context, k: Controller, name: string, wasReady: bool, w: World, s: Schedule)
    requires InRange(k) && WellPlanned(PlanOf(c, k))
    ensures DaemonSetRequests(AfterStep(c, k, name, wasReady, w, s).log) ==
            DaemonSetRequests(w.log) + StepRequests(PlanOf(c, k), k.idx, w, s)
  {
    AfterStepFrame(c, k, name, wasReady, w, s);
    StepSends(PlanOf(c, k), k.idx, w, s);
    UpdateStateSends(Step(c, k, w, s).w, k.idx, name, NotReady, k.namespace, s);
  }

  // ----- which visit sent a request

  lemma {:induction false} Sender(c: Context, enabled: bool, i: nat, ts: seq<DaemonSet>, j: nat, q: nat, w: World,
                                  s: Schedule, r: Request)
    returns (b: nat)
    requires j <= q <= |ts| && r in VisitLogs(c, enabled, i, ts, j, q, w, s)
    ensures j <= b < q && r in VisitNow(c, enabled, i, ts, b, w, s).log
    decreases q - j
  {
    if r in VisitNow(c, enabled, i, ts, j, w, s).log {
      b := j;
    } else {
      b := Sender(c, enabled, i, ts, j + 1, q, w, s, r);
    }
  }

  lemma {:induction false} SenderSends(c: Context, enabled: bool, i: nat, ts: seq<DaemonSet>, j: nat, q: nat,
                                       w: World, s: Schedule, r: Request, b: nat)
    requires j <= b < q <= |ts| && r in VisitNow(c, enabled, i, ts, b, w, s).log
    ensures r in VisitLogs(c, enabled, i, ts, j, q, w, s)
    decreases q - j
  {
    if j < b {
      SenderSends(c, enabled, i, ts, j + 1, q, w, s, r, b);
    }
  }

  lemma {:induction false} ConcatIn(logs: seq<seq<Request>>, r: Request)
    ensures r in Concat(logs) <==> exists x :: 0 <= x < |logs| && r in logs[x]
  {
    if logs != [] {
      ConcatIn(logs[1..], r);
      assert forall x :: 1 <= x < |logs| ==> logs[x] == logs[1..][x - 1];
    }
  }

  /** Step `a` sends a request about the object of a template exactly if it is the template's own step, gets to
      the template, and its visit sends the request. */
  lemma StepSendsAbout(p: Plan, a: nat, i: nat, j: nat, w: World, s: Schedule, r: Request)
    requires WellPlanned(p) && a < |p.resources| && InPlan(p, i, j) && About(r, KeyAt(p, i, j))
    ensures r in StepRequests(p, a, w, s) <==> a == i && j < StepReach(p, i, w, s) && r in VisitAt(p, i, j, w, s).log
  {
    var e, ts, q := EnabledAt(p, a), p.resources[a].daemonSets, StepReach(p, a, w, s);
    if r in StepRequests(p, a, w, s) {
      var b := Sender(p.c, e, a, ts, 0, q, w, s, r);
      VisitLog(p.c, e, a, b, ts[b], Slot(w.daemonSets, KeyOf(p.c, ts[b])), s);
      assert ts[b].name == TemplateAt(p, i, j).name;
    } else if a == i && j < q && r in VisitAt(p, i, j, w, s).log {
      SenderSends(p.c, e, a, ts, 0, q, w, s, r, j);
    }
  }

  lemma PassGrows(c: Context, k: Controller, name: string, wasReady: bool, overall: State, w: World, s: Schedule)
    requires InRange(k) && WellPlanned(PlanOf(c, k))
    ensures w.log <= StepsFrom(c, k, name, wasReady, overall, w, s).w.log
  {
    PassLog(c, k, name, wasReady, overall, w, s, |w.log|, (r: Request) => true);
  }

  /** The requests of the visits, state by state, of a pass whose cursor stops at `m`. */
  function LogsUpTo(p: Plan, m: nat, w: World, s: Schedule): (logs: seq<seq<Request>>)
    requires Aligned(p)
    ensures |logs| == if m < |p.resources| then m + 1 else |p.resources|
  {
    seq(if m < |p.resources| then m + 1 else |p.resources|,
        i requires 0 <= i < |p.resources| => StepRequests(p, i, w, s))
  }

  /** A pass sends exactly the DaemonSet requests of the visits it gets to, in state and file order. */
  lemma PassSendsExactly(c: Context, k: Controller, name: string, wasReady: bool, overall: State, w: World, s: Schedule)
    requires InRange(k) && k.idx == 0 && WellPlanned(PlanOf(c, k))
    ensures var p, r := PlanOf(c, k), StepsFrom(c, k, name, wasReady, overall, w, s);
      && w.log <= r.w.log
      && DaemonSetRequests(r.w.log[|w.log|..]) == Concat(LogsUpTo(p, r.controller.idx, w, s))
  {
    var p, r := PlanOf(c, k), StepsFrom(c, k, name, wasReady, overall, w, s);
    PassGrows(c, k, name, wasReady, overall, w, s);
    var logs := seq(|p.resources|, a requires 0 <= a < |p.resources| => StepRequests(p, a, w, s));
    PassRequests(c, k, name, wasReady, overall, w, s, logs);
    SentSuffix(r, w.log, logs);
    var m := r.controller.idx;
    assert logs[0..if m < |logs| then m + 1 else m] == LogsUpTo(p, m, w, s);
  }

  lemma SentSuffix(r: Pass, log: seq<Request>, logs: seq<seq<Request>>)
    requires log <= r.w.log && Sent(r, log, logs, 0)
    ensures var m := r.controller.idx;
            m <= |logs| && DaemonSetRequests(r.w.log[|log|..]) == Concat(logs[0..if m < |logs| then m + 1 else m])
  {
    assert r.w.log == log + r.w.log[|log|..];
    RequestsAppend(log, r.w.log[|log|..]);
    var m, before := r.controller.idx, DaemonSetRequests(log);
    var sent := Concat(logs[0..if m < |logs| then m + 1 else m]);
    assert (before + sent)[|before|..] == sent;
    assert (before + DaemonSetRequests(r.w.log[|log|..]))[|before|..] == DaemonSetRequests(r.w.log[|log|..]);
  }

  /** A step the cursor has left behind has visited all its templates; a completed pass has left all behind. */
  lemma StepsLeftBehind(c: Context, k: Controller, name: string, wasReady: bool, overall: State, w: World,
                        s: Schedule, i: nat)
    requires InRange(k) && k.idx == 0 && WellPlanned(PlanOf(c, k)) && i < |k.resources|
    ensures var p, r := PlanOf(c, k), StepsFrom(c, k, name, wasReady, overall, w, s);
      && (i < r.controller.idx ==> StepReach(p, i, w, s) == |p.resources[i].daemonSets|)
      && (Completed(r.ending) ==> i < r.controller.idx)
  {
    var p := PlanOf(c, k);
    PassCursor(c, k, name, wasReady, overall, w, s);
    StepFrame(p, i, w, s);
    if p.resources[i].daemonSets != [] {
      StepSlot(p, i, 0, w, s);
    }
  }

  /** The logs of all templates' visits, judged on what is stored now, in state and file order. */
  function AllVisits(p: Plan, w: World, s: Schedule): (logs: seq<seq<Request>>)
    requires Aligned(p)
    ensures |logs| == |p.resources|
  {
    seq(|p.resources|, i requires 0 <= i < |p.resources| =>
      VisitLogs(p.c, EnabledAt(p, i), i, p.resources[i].daemonSets, 0, |p.resources[i].daemonSets|, w, s))
  }

  /** A completed pass visits every template exactly once, in state and file order. */
  lemma CompletedSendsExactly(c: Context, k: Controller, name: string, wasReady: bool, overall: State, w: World,
                              s: Schedule)
    requires InRange(k) && k.idx == 0 && WellPlanned(PlanOf(c, k))
    ensures var p, r := PlanOf(c, k), StepsFrom(c, k, name, wasReady, overall, w, s);
            Completed(r.ending) ==>
              w.log <= r.w.log && DaemonSetRequests(r.w.log[|w.log|..]) == Concat(AllVisits(p, w, s))
  {
    var p, r := PlanOf(c, k), StepsFrom(c, k, name, wasReady, overall, w, s);
    PassSendsExactly(c, k, name, wasReady, overall, w, s);
    if Completed(r.ending) {
      PassCursor(c, k, name, wasReady, overall, w, s);
      var m := r.controller.idx;
      forall i | 0 <= i < |k.resources| ensures LogsUpTo(p, m, w, s)[i] == AllVisits(p, w, s)[i] {
        StepsLeftBehind(c, k, name, wasReady, overall, w, s, i);
      }
      assert LogsUpTo(p, m, w, s) == AllVisits(p, w, s);
    }
  }

  /** Each template is visited at most once, and exactly if the pass gets to it: what the pass sends about its
      object is what that one visit sends. */
  lemma PassSends(c: Context, k: Controller, name: string, wasReady: bool, overall: State, w: World, s: Schedule,
                  i: nat, j: nat, q: Request)
    requires InRange(k) && k.idx == 0 && WellPlanned(PlanOf(c, k)) && InPlan(PlanOf(c, k), i, j) &&
             About(q, KeyAt(PlanOf(c, k), i, j))
    ensures var p, r := PlanOf(c, k), StepsFrom(c, k, name, wasReady, overall, w, s);
      && w.log <= r.w.log
      && (q in r.w.log[|w.log|..] <==> Visited(p, r.controller.idx, i, j, w, s) && q in VisitAt(p, i, j, w, s).log)
  {
    var r := StepsFrom(c, k, name, wasReady, overall, w, s);
    PassSendsExactly(c, k, name, wasReady, overall, w, s);
    RequestsIn(r.w.log[|w.log|..], q);
    LogsAbout(PlanOf(c, k), r.controller.idx, i, j, w, s, q);
    StepsLeftBehind(c, k, name, wasReady, overall, w, s, i);
  }

  lemma LogsAbout(p: Plan, m: nat, i: nat, j: nat, w: World, s: Schedule, q: Request)
    requires WellPlanned(p) && InPlan(p, i, j) && About(q, KeyAt(p, i, j))
    ensures q in Concat(LogsUpTo(p, m, w, s)) <==>
            i <= m && j < StepReach(p, i, w, s) && q in VisitAt(p, i, j, w, s).log
  {
    var done := LogsUpTo(p, m, w, s);
    ConcatIn(done, q);
    forall a | 0 <= a < |done|
      ensures q in done[a] <==> a == i && j < StepReach(p, i, w, s) && q in VisitAt(p, i, j, w, s).log
    {
      StepSendsAbout(p, a, i, j, w, s, q);
    }
    if i <= m && j < StepReach(p, i, w, s) && q in VisitAt(p, i, j, w, s).log {
      assert q in done[i];
    }
  }
}
