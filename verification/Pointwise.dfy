/** A whole pass, however it ends, decomposed into one visit per stored DaemonSet. */
module Pointwise {
  import opened Policy
  import opened Objects
  import opened Cluster
  import opened Enforcement
  import opened OutcomeJoin
  import opened Machine

  // ----- one DaemonSet control function

  ghost predicate DistinctNames(ts: seq<DaemonSet>) {
    forall a, b :: 0 <= a < b < |ts| ==> ts[a].name != ts[b].name
  }

  /** What the visit of template `j` would do to the object stored now. */
  function VisitNow(c: Context, enabled: bool, i: nat, ts: seq<DaemonSet>, j: nat, w: World, s: Schedule): Attempt
    requires j < |ts|
  {
    Visit(c, enabled, i, j, ts[j], Slot(w.daemonSets, KeyOf(c, ts[j])), s)
  }

  ghost predicate Elsewhere(c: Context, ts: seq<DaemonSet>, from: nat, key: Key)
  {
    forall j :: from <= j < |ts| ==> key != KeyOf(c, ts[j])
  }

  /** Storing one template's object changes no other template's visit. */
  lemma OtherVisits(c: Context, enabled: bool, i: nat, ts: seq<DaemonSet>, j: nat, a: Attempt, w: World, s: Schedule)
    requires j < |ts| && DistinctNames(ts)
    ensures forall b :: j < b < |ts| ==>
              VisitNow(c, enabled, i, ts, b, Record(w, KeyOf(c, ts[j]), a), s) == VisitNow(c, enabled, i, ts, b, w, s)
  {
  }

  ghost predicate OnlyAt(c: Context, ts: seq<DaemonSet>, from: nat, w: World, w': World) {
    && w'.policies == w.policies && w'.classes == w.classes
    && forall key :: Elsewhere(c, ts, from, key) ==> Slot(w'.daemonSets, key) == Slot(w.daemonSets, key)
  }

  lemma {:induction false} DaemonSetsFrame(c: Context, enabled: bool, i: nat, ts: seq<DaemonSet>, j: nat,
                                           result: State, w: World, s: Schedule)
    requires j <= |ts|
    ensures OnlyAt(c, ts, j, w, DaemonSetsFrom(c, enabled, i, ts, j, result, w, s).w)
    decreases |ts| - j
  {
    if j < |ts| {
      var a := VisitNow(c, enabled, i, ts, j, w, s);
      var w' := Record(w, KeyOf(c, ts[j]), a);
      if !a.outcome.Panicked? {
        DaemonSetsFrame(c, enabled, i, ts, j + 1, Merge(result, a.outcome), w', s);
      }
    }
  }

  /** The outcome of every template, each judged on what is stored for it before the loop. */
  function Outcomes(c: Context, enabled: bool, i: nat, ts: seq<DaemonSet>, w: World, s: Schedule): (os: seq<Outcome>)
    ensures |os| == |ts|
    ensures forall j :: 0 <= j < |ts| ==> os[j] == VisitNow(c, enabled, i, ts, j, w, s).outcome
  {
    seq(|ts|, j requires 0 <= j < |ts| => VisitNow(c, enabled, i, ts, j, w, s).outcome)
  }

  /** How far the loop gets from template `j` on: to the first panic, or to the end. */
  function Ran(os: seq<Outcome>, j: nat): (q: nat)
    requires j <= |os|
    ensures j <= q <= |os|
    ensures forall a :: j <= a < q ==> !os[a].Panicked?
    decreases |os| - j
  {
    if j == |os| || os[j].Panicked? then j else Ran(os, j + 1)
  }

  /** The loop visits the templates before the first panic, and no others: each of their slots ends as
      its own visit leaves it, the rest stay untouched. */
  lemma {:induction false} DaemonSetsSlot(c: Context, enabled: bool, i: nat, ts: seq<DaemonSet>, j: nat,
                                          result: State, w: World, s: Schedule, os: seq<Outcome>, a: nat)
    requires j <= a < |ts| == |os| && DistinctNames(ts)
    requires forall b :: j <= b < |ts| ==> os[b] == VisitNow(c, enabled, i, ts, b, w, s).outcome
    ensures var o := DaemonSetsFrom(c, enabled, i, ts, j, result, w, s);
      && Slot(o.w.daemonSets, KeyOf(c, ts[a])) ==
           (if a < Ran(os, j) then VisitNow(c, enabled, i, ts, a, w, s).slot else Slot(w.daemonSets, KeyOf(c, ts[a])))
      && (o.verdict.Returned? <==> Ran(os, j) == |ts|)
    decreases |ts| - j
  {
    var v := VisitNow(c, enabled, i, ts, j, w, s);
    var w' := Record(w, KeyOf(c, ts[j]), v);
    if !v.outcome.Panicked? {
      OtherVisits(c, enabled, i, ts, j, v, w, s);
      if j == a {
        DaemonSetsFrame(c, enabled, i, ts, j + 1, Merge(result, v.outcome), w', s);
        assert Elsewhere(c, ts, j + 1, KeyOf(c, ts[j]));
        DaemonSetsEnd(c, enabled, i, ts, j + 1, Merge(result, v.outcome), w', s, os);
      } else {
        DaemonSetsSlot(c, enabled, i, ts, j + 1, Merge(result, v.outcome), w', s, os, a);
      }
    }
  }

  lemma {:induction false} DaemonSetsEnd(c: Context, enabled: bool, i: nat, ts: seq<DaemonSet>, j: nat,
                                         result: State, w: World, s: Schedule, os: seq<Outcome>)
    requires j <= |ts| == |os| && DistinctNames(ts)
    requires forall b :: j <= b < |ts| ==> os[b] == VisitNow(c, enabled, i, ts, b, w, s).outcome
    ensures DaemonSetsFrom(c, enabled, i, ts, j, result, w, s).verdict.Returned? <==> Ran(os, j) == |ts|
    decreases |ts| - j
  {
    if j < |ts| {
      var v := VisitNow(c, enabled, i, ts, j, w, s);
      if !v.outcome.Panicked? {
        OtherVisits(c, enabled, i, ts, j, v, w, s);
        DaemonSetsEnd(c, enabled, i, ts, j + 1, Merge(result, v.outcome), Record(w, KeyOf(c, ts[j]), v), s, os);
      }
    }
  }

  lemma {:induction false} DaemonSetsVerdict(c: Context, enabled: bool, i: nat, ts: seq<DaemonSet>, j: nat,
                                             result: State, w: World, s: Schedule, os: seq<Outcome>)
    requires j <= |ts| == |os| && DistinctNames(ts)
    requires forall a :: j <= a < |ts| ==> os[a] == VisitNow(c, enabled, i, ts, a, w, s).outcome
    ensures DaemonSetsFrom(c, enabled, i, ts, j, result, w, s).verdict == Fold(os[j..], result)
    decreases |ts| - j
  {
    if j < |ts| {
      var v := VisitNow(c, enabled, i, ts, j, w, s);
      assert os[j..][0] == v.outcome && os[j..][1..] == os[j + 1..];
      if !v.outcome.Panicked? {
        OtherVisits(c, enabled, i, ts, j, v, w, s);
        DaemonSetsVerdict(c, enabled, i, ts, j + 1, Merge(result, v.outcome), Record(w, KeyOf(c, ts[j]), v), s, os);
      }
    }
  }

  // ----- the control functions of one state

  /** The DaemonSet control is there once if the state has DaemonSets, and not at all otherwise. */
  ghost predicate Once(controls: seq<Control>, r: Resources) {
    && (DaemonSetControl in controls <==> r.daemonSets != [])
    && forall a, b :: 0 <= a < b < |controls| ==> !(controls[a].DaemonSetControl? && controls[b].DaemonSetControl?)
  }

  /** What the RuntimeClass control answers, whatever is stored. */
  function ClassVerdict(c: Context, enabled: bool, i: nat, n: nat, t: RuntimeClass, s: Schedule): Verdict {
    if !enabled then Returned(if s(ClassRemove(i, n)).fault.Working? then Disabled else NotReady)
    else if Owned(c, t.owner).Some? && s(ClassLookup(i, n)).fault.Working? && s(ClassSave(i, n)).fault.Working? then
      Returned(Ready)
    else Failed
  }

  lemma ClassControlLocal(c: Context, enabled: bool, i: nat, n: nat, t: RuntimeClass, w: World, s: Schedule)
    ensures var o := ApplyClass(c, enabled, i, n, t, w, s);
            o.verdict == ClassVerdict(c, enabled, i, n, t, s) &&
            o.w.daemonSets == w.daemonSets && o.w.policies == w.policies
  {
  }

  function ControlVerdict(c: Context, enabled: bool, i: nat, n: nat, control: Control, r: Resources, w: World,
                          s: Schedule): Verdict {
    match control
    case DaemonSetControl => Fold(Outcomes(c, enabled, i, r.daemonSets, w, s), Ready)
    case ClassControl => ClassVerdict(c, enabled, i, n, r.runtimeClass, s)
  }

  /** A failure or panic ends the step; otherwise the last state other than Ready is its result. */
  function FoldVerdicts(vs: seq<Verdict>, result: State): Verdict {
    if vs == [] then Returned(result)
    else if !vs[0].Returned? then vs[0]
    else FoldVerdicts(vs[1..], if vs[0].state != Ready then vs[0].state else result)
  }

  lemma {:induction false} ControlsFrame(c: Context, enabled: bool, i: nat, n: nat, controls: seq<Control>,
                                         r: Resources, result: State, w: World, s: Schedule)
    requires n <= |controls|
    ensures var o := ControlsFrom(c, enabled, i, n, controls, r, result, w, s);
      && o.w.policies == w.policies
      && (DaemonSetControl !in controls[n..] ==> o.w.daemonSets == w.daemonSets)
      && forall key :: Elsewhere(c, r.daemonSets, 0, key) ==> Slot(o.w.daemonSets, key) == Slot(w.daemonSets, key)
    decreases |controls| - n
  {
    if n < |controls| {
      var o := RunControl(c, enabled, i, n, controls[n], r, w, s);
      match controls[n] {
        case DaemonSetControl => DaemonSetsFrame(c, enabled, i, r.daemonSets, 0, Ready, w, s);
        case ClassControl => ClassControlLocal(c, enabled, i, n, r.runtimeClass, w, s);
      }
      assert controls[n] in controls[n..];
      assert forall x :: x in controls[n + 1..] ==> x in controls[n..];
      if o.verdict.Returned? {
        ControlsFrame(c, enabled, i, n + 1, controls, r,
                      if o.verdict.state != Ready then o.verdict.state else result, o.w, s);
      }
    }
  }

  /** How many templates a step visits from control `n` on: none if a control before the DaemonSet control
      fails, else as many as its loop gets to. */
  function Reach(c: Context, enabled: bool, i: nat, n: nat, controls: seq<Control>, r: Resources, w: World,
                 s: Schedule): (q: nat)
    requires n <= |controls|
    ensures q <= |r.daemonSets|
    decreases |controls| - n
  {
    if n == |controls| then 0
    else if controls[n].DaemonSetControl? then Ran(Outcomes(c, enabled, i, r.daemonSets, w, s), 0)
    else if ClassVerdict(c, enabled, i, n, r.runtimeClass, s).Returned? then
      Reach(c, enabled, i, n + 1, controls, r, w, s)
    else 0
  }

  /** No visit a step gets through panics. */
  lemma {:induction false} ReachCalm(c: Context, enabled: bool, i: nat, n: nat, controls: seq<Control>, r: Resources,
                                     w: World, s: Schedule, j: nat)
    requires n <= |controls| && j < Reach(c, enabled, i, n, controls, r, w, s)
    ensures !VisitNow(c, enabled, i, r.daemonSets, j, w, s).outcome.Panicked?
    decreases |controls| - n
  {
    if controls[n].DaemonSetControl? {
      assert !Outcomes(c, enabled, i, r.daemonSets, w, s)[j].Panicked?;
    } else {
      ReachCalm(c, enabled, i, n + 1, controls, r, w, s, j);
    }
  }

  lemma {:induction false} ReachSameStore(c: Context, enabled: bool, i: nat, n: nat, controls: seq<Control>,
                                          r: Resources, w: World, w': World, s: Schedule)
    requires n <= |controls|
    requires forall j :: 0 <= j < |r.daemonSets| ==>
               VisitNow(c, enabled, i, r.daemonSets, j, w', s) == VisitNow(c, enabled, i, r.daemonSets, j, w, s)
    ensures Reach(c, enabled, i, n, controls, r, w', s) == Reach(c, enabled, i, n, controls, r, w, s)
    decreases |controls| - n
  {
    assert Outcomes(c, enabled, i, r.daemonSets, w', s) == Outcomes(c, enabled, i, r.daemonSets, w, s);
    if n < |controls| {
      ReachSameStore(c, enabled, i, n + 1, controls, r, w, w', s);
    }
  }

  lemma ControlsSlotHere(c: Context, enabled: bool, i: nat, n: nat, controls: seq<Control>, r: Resources,
                         result: State, w: World, s: Schedule, a: nat)
    requires n < |controls| && Once(controls, r) && a < |r.daemonSets| && DistinctNames(r.daemonSets) &&
             controls[n].DaemonSetControl?
    ensures var o := ControlsFrom(c, enabled, i, n, controls, r, result, w, s);
            var q := Reach(c, enabled, i, n, controls, r, w, s);
      && Slot(o.w.daemonSets, KeyOf(c, r.daemonSets[a])) ==
           (if a < q then VisitNow(c, enabled, i, r.daemonSets, a, w, s).slot
            else Slot(w.daemonSets, KeyOf(c, r.daemonSets[a])))
      && (o.verdict.Returned? ==> q == |r.daemonSets|)
  {
    var o := RunControl(c, enabled, i, n, controls[n], r, w, s);
    DaemonSetsSlot(c, enabled, i, r.daemonSets, 0, Ready, w, s, Outcomes(c, enabled, i, r.daemonSets, w, s), a);
    assert DaemonSetControl !in controls[n + 1..];
    if o.verdict.Returned? {
      ControlsFrame(c, enabled, i, n + 1, controls, r, if o.verdict.state != Ready then o.verdict.state else result,
                    o.w, s);
    }
  }

  /** A step visits the first `Reach` templates of its state as stored before the step, and leaves the others
      alone; if it returns it has visited all. */
  lemma {:induction false} ControlsSlot(c: Context, enabled: bool, i: nat, n: nat, controls: seq<Control>, r: Resources,
                                        result: State, w: World, s: Schedule, a: nat)
    requires n <= |controls| && Once(controls, r) && a < |r.daemonSets| && DistinctNames(r.daemonSets)
    requires DaemonSetControl in controls[n..]
    ensures var o := ControlsFrom(c, enabled, i, n, controls, r, result, w, s);
            var q := Reach(c, enabled, i, n, controls, r, w, s);
      && Slot(o.w.daemonSets, KeyOf(c, r.daemonSets[a])) ==
           (if a < q then VisitNow(c, enabled, i, r.daemonSets, a, w, s).slot
            else Slot(w.daemonSets, KeyOf(c, r.daemonSets[a])))
      && (o.verdict.Returned? ==> q == |r.daemonSets|)
    decreases |controls| - n
  {
    match controls[n] {
      case DaemonSetControl =>
        ControlsSlotHere(c, enabled, i, n, controls, r, result, w, s, a);
      case ClassControl =>
        var o := RunControl(c, enabled, i, n, controls[n], r, w, s);
        ClassControlLocal(c, enabled, i, n, r.runtimeClass, w, s);
        assert controls[n..] == [controls[n]] + controls[n + 1..];
        if o.verdict.Returned? {
          ControlsSlot(c, enabled, i, n + 1, controls, r,
                       if o.verdict.state != Ready then o.verdict.state else result, o.w, s, a);
          ReachSameStore(c, enabled, i, n + 1, controls, r, w, o.w, s);
        }
    }
  }

  /** What each control of a state answers, judged on what is stored before the step. */
  function Verdicts(c: Context, enabled: bool, i: nat, controls: seq<Control>, r: Resources, w: World, s: Schedule)
    : (vs: seq<Verdict>)
    ensures |vs| == |controls|
  {
    seq(|controls|, n requires 0 <= n < |controls| => ControlVerdict(c, enabled, i, n, controls[n], r, w, s))
  }

  lemma {:induction false} ControlsVerdict(c: Context, enabled: bool, i: nat, n: nat, controls: seq<Control>,
                                           r: Resources, result: State, w: World, s: Schedule, vs: seq<Verdict>)
    requires n <= |controls| == |vs| && Once(controls, r) && DistinctNames(r.daemonSets)
    requires forall m :: n <= m < |vs| ==> vs[m] == ControlVerdict(c, enabled, i, m, controls[m], r, w, s)
    ensures ControlsFrom(c, enabled, i, n, controls, r, result, w, s).verdict == FoldVerdicts(vs[n..], result)
    decreases |controls| - n
  {
    if n < |controls| {
      var o := RunControl(c, enabled, i, n, controls[n], r, w, s);
      var result' := if o.verdict.Returned? && o.verdict.state != Ready then o.verdict.state else result;
      var os := Outcomes(c, enabled, i, r.daemonSets, w, s);
      match controls[n] {
        case DaemonSetControl =>
          DaemonSetsVerdict(c, enabled, i, r.daemonSets, 0, Ready, w, s, os);
          assert os[0..] == os;
        case ClassControl =>
          ClassControlLocal(c, enabled, i, n, r.runtimeClass, w, s);
      }
      assert o.verdict == vs[n];
      assert vs[n..][0] == vs[n] && vs[n..][1..] == vs[n + 1..];
      if o.verdict.Returned? {
        LaterVerdicts(c, enabled, i, n, controls, r, w, s);
        ControlsVerdict(c, enabled, i, n + 1, controls, r, result', o.w, s, vs);
      }
    }
  }

  /** Running one control changes the answer of no later one. */
  lemma LaterVerdicts(c: Context, enabled: bool, i: nat, n: nat, controls: seq<Control>, r: Resources, w: World,
                      s: Schedule)
    requires n < |controls| && Once(controls, r)
    ensures var w' := RunControl(c, enabled, i, n, controls[n], r, w, s).w;
            forall m :: n < m < |controls| ==>
              ControlVerdict(c, enabled, i, m, controls[m], r, w', s) ==
                ControlVerdict(c, enabled, i, m, controls[m], r, w, s)
  {
    var w' := RunControl(c, enabled, i, n, controls[n], r, w, s).w;
    if controls[n].ClassControl? {
      ClassControlLocal(c, enabled, i, n, r.runtimeClass, w, s);
      assert Outcomes(c, enabled, i, r.daemonSets, w', s) == Outcomes(c, enabled, i, r.daemonSets, w, s);
    }
  }
}
